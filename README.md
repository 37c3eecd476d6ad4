# CMTools core, modelled in Dafny

CMTools is a desktop shell around three bundled analysis executables:
AneuFiler, Aneu23 and SHCarrier. The user selects input files and a tool.
The shell runs the tool once per file, with flags taken from the form, and
reports which runs succeeded. Two front ends do this:

- an Electron application: the main process in `main.js` and the page in `renderer.js`;
- a Tauri application: the `process_files` command in `src-tauri/src/lib.rs`.

The web front end also keeps usage analytics behind the user's consent
(`src/utils/analytics.ts`), with a cached connectivity check in front of it
(`src/utils/network-guard.ts`). Two packaging scripts choose Rust targets,
build commands and output names (`scripts/build-all-platforms.cjs`,
`scripts/build-current-system.cjs`).

The model has one module per source file, plus four helper modules:

| module | file | models |
|---|---|---|
| `ToolCli` | tool_cli.dfy | The tools' command line, `-i <file> [-Area] [-STD <name>] [-GBK] [-dev]`. `Parse` reads a vector back; it is the partner both argument builders are proved against. |
| `MainCommand` | main_command.dfy | main.js, one file: the argument vector, the executable lookup, the output names, the exit report and the single-file `process-file` handler. |
| `MainDispatcher` | main_dispatcher.dfy | main.js, the `process-files` batch: a `Batch` class with `queue`, `inProgress`, `results` and `completed`. `Dispatch` runs it for every completion order; the summary is built by `Summarize`. |
| `TauriCommands` | tauri_commands.dfy | lib.rs: `get_message`, and `process_files` as a loop pushing one result per path. |
| `Analytics` | analytics.dfy | analytics.ts: class `AnalyticsManager`. Local storage is a map field; PostHog is a log of captures and a count of `init` calls. |
| `NetworkGuard` | network_guard.dfy | network-guard.ts: class `Guard` for the two cache variables; class `Listener` for one online/offline registration. |
| `Renderer` | renderer.dfy | renderer.js: class `Page` for the selection, the guards before a request, and the display of the reply. |
| `BuildAllPlatforms` | build_all_platforms.dfy | The all-platform script: build lists, target dedup, the `--target` and bundle decisions, each build's outcome, the counters. |
| `BuildCurrentSystem` | build_current_system.dfy | The single-target script: architecture table, target installation, build command, copy step, exit status. |
| `Text`, `NodePath`, `Wrappers` | text.dfy, node_path.dfy, wrappers.dfy | Substring search, JavaScript and Rust trimming, Node's POSIX `path` functions, `Option` and `Result`. |

Outside effects are parameters of the operations that meet them:

- `fs.existsSync` and `Path::exists` are a set of existing paths, `onDisk`.
- How each tool run ends is an `outcome`/`run` function from the file's position.
- In the batch, which running job settles next is chosen freely. Every contract holds for every such choice.
- The clock is a `now` argument.
- The connectivity probe is a `reachable` flag.
- `navigator.onLine` is an `online` flag.
- The user agent, the host platform and architecture, and shell-command results are arguments.

## Model

| member | source | states |
|---|---|---|
| ToolCli.ParseRender | main.js:402-421 | Every invocation is read back exactly from the vector that asks for it; the reference reading used for both argument builders. |
| ToolCli.RenderInjective | main.js:402-421 | Different invocations give different argument vectors. |
| ToolCli.Render | main.js:402-421 | A rendered vector always opens with `-i` and the input file. |
| ToolCli.Parse | main.js:402-421 | A vector is read only when it opens with `-i`; the file after it is the input. |
| MainCommand.BuildArgs | main.js:402-421 | The vector always starts with `-i`, the input path. |
| MainCommand.BuildArgsMeaning | main.js:402-421 | Read back, the vector asks for exactly: the input file; `-Area` iff `useArea`; `-STD <stdName>` iff the tool is not aneuFiler and the name is non-empty and not "STD"; `-GBK` iff the tool is shCarrier and `useGBK`; `-dev` iff `devMode`. Flags come in that order and there is nothing else. |
| MainCommand.ExeFileName | main.js:341 | The executable name is never empty: the given name, or "SHCarrier.exe" when none is given. |
| MainCommand.Candidates | main.js:348-373 | One candidate in development or production, two when packaged. The resources directory is the last resort whenever the app is packaged or in production; in development the only candidate is the module directory. |
| MainCommand.LocateExecutable | main.js:348-382 | A found executable exists and is one of the candidates. A missing one gives the not-found message naming the path that was tried. |
| MainCommand.FirstPresent | main.js:348-373 | The first existing path of a preference list; none iff no listed path exists. |
| MainCommand.LocateFindsFirstPresent | main.js:348-382 | The executable lookup succeeds iff a candidate exists (the module directory in development; the unpacked archive, then `resourcesPath`, when packaged). It returns the most preferred existing candidate. |
| NodePath.StemAndExtension | main.js:478 | The base name without its extension, followed by the extension, is the base name. The stem has no separator. |
| NodePath.SiblingInSameDirectory | main.js:479-481 | Joining the input's directory with a plain name gives a path in that directory with that name. |
| MainCommand.OutputNaming | main.js:478-481 | Both outputs are in the input's directory, named `<stem>-summary.tsv` and `<stem>-cal.tsv`, and they are different files. |
| MainCommand.SummaryPath | main.js:478-480 | The summary lies in the input's directory and is named `<stem>-summary.tsv`. |
| MainCommand.CalculationPath | main.js:478-481 | The calculation table lies in the input's directory and is named `<stem>-cal.tsv`. |
| MainCommand.ExitReportOf | main.js:473-507 | Success iff exit code 0; the code, stdout and stderr are kept. On success each output path is reported iff that file exists. A failure has no output files. |
| MainCommand.BatchJobResult | main.js:509-544 | A result is recorded for its file; success iff the process closed with code 0. A start failure is recorded as "Unknown error". |
| MainCommand.ProcessSingleFile | main.js:155-320 | Missing input gives "File does not exist". Then a missing executable gives its not-found message. A throwing spawn rejects with "Failed to launch process: …". Otherwise the reply settles with `ExitReportOf` the exit (code, stdout, stderr, output files), or rejects with the start error. |
| MainDispatcher.ExistingFiles | main.js:335 | Keeps exactly the existing paths. |
| MainDispatcher.ExistingFilesCounts | main.js:335 | Each existing path is kept as often as it is listed; other paths are dropped. |
| MainDispatcher.ExistingFilesAppend | main.js:335 | The filter keeps input order: it distributes over concatenation. |
| MainDispatcher.Batch.constructor | main.js:385-388 | Queue = the valid files; nothing running; no results; completed 0; peak 0; the invariant holds. |
| MainDispatcher.Batch.ProcessNext | main.js:521-525 | Takes the front of the queue into `inProgress`; on an empty queue nothing changes. Keeps `queue.length + inProgress.size + completed == files.length` and `results.length == completed`; the peak is raised to the running count when that exceeds it. |
| MainDispatcher.Batch.Finish | main.js:527-569 | A settled job pushes exactly its result, leaves `inProgress`, raises `completed` by 1 and starts the next queued file. The invariant is kept and the peak does not move. |
| MainDispatcher.StartChains | main.js:573-578 | Exactly `initialBatch` chains start, on the first `initialBatch` files. |
| MainDispatcher.Drain | main.js:521-584 | Runs until nothing is in progress. The queue is emptied whenever something was started. Every result is the outcome of its file. With one chain, jobs finish in input order. |
| MainDispatcher.Dispatch | main.js:572-584 | For `maxConcurrent >= 1`: every valid file gets exactly one result, the result of its own run. At no point of the run are more than `min(maxConcurrent, files)` tools running, and that many do run at once (`peak` is the high-water mark of `inProgress`). With one chain the results are in input order. For `maxConcurrent < 1` nothing runs and the peak is 0. |
| MainDispatcher.CountSuccess | main.js:587 | At most the number of results; zero iff no result succeeded. |
| MainDispatcher.Failures | main.js:591 | Exactly the failed results; empty iff all succeeded. |
| MainDispatcher.SuccessesAndFailures | main.js:587-591 | Successes plus failures is the number of results. |
| MainDispatcher.Summarize | main.js:586-603 | `success` iff some result succeeded. `failureCount = totalFiles − successCount`. The error report holds exactly the failed results, and is empty iff all succeeded. |
| MainDispatcher.FailureCountMatchesReport | main.js:591-601 | When every file has a result, `failureCount` is the length of the error report and is not negative. |
| MainDispatcher.ProcessFiles | main.js:329-604 | No existing input gives "No valid files to process". Then a missing executable gives its message. Otherwise the reply is the summary of one result per valid file, with at most `min(maxConcurrent, files)` tools running at once, as for `Dispatch`. |
| MainDispatcher.StartAsWritten | main.js:521-525 | Path-keyed bookkeeping: the front path joins `inProgress`. |
| MainDispatcher.FinishAsWritten | main.js:556-569 | Path-keyed bookkeeping: the settled path leaves `inProgress` unless it is restarted at once. |
| MainDispatcher.DuplicatePathEndsDrainEarly | main.js:521-584 | With ["a","b","a"] and two chains, `inProgress` empties while one "a" still runs: 2 results for 3 files. |
| TauriCommands.ParseKeyName | src-tauri/src/lib.rs:16-42 | Each key's spelling is recognised as that key. |
| TauriCommands.GetMessageOfKey | src-tauri/src/lib.rs:16-42 | `get_message` on a key's spelling gives that key's message. |
| TauriCommands.MessageFallsBackToEnglish | src-tauri/src/lib.rs:16-42 | Any language other than "zh" reads the English text. A string that spells no key is echoed. |
| TauriCommands.ChineseStarts | src-tauri/src/lib.rs:18-38 | Every Chinese text starts with a CJK ideograph. |
| TauriCommands.EnglishStarts | src-tauri/src/lib.rs:19-39 | Every English text starts with an ASCII character. |
| TauriCommands.ChineseDiffersFromEnglish | src-tauri/src/lib.rs:16-42 | For every key, the Chinese message differs from the English one: it starts above U+4E00, the English one below U+0080. |
| TauriCommands.ChineseFileTextsEnd | src-tauri/src/lib.rs:18-26 | The Chinese texts of the four file messages end with ": ". |
| TauriCommands.EnglishFileTextsEnd | src-tauri/src/lib.rs:19-27 | The English texts of the four file messages end with ": ". |
| TauriCommands.MessageEndsWithFileName | src-tauri/src/lib.rs:18-27 | The four file messages end with ": " and the file name. |
| TauriCommands.Lang | src-tauri/src/lib.rs:85 | A missing language is "en". |
| TauriCommands.ToolByName | src-tauri/src/lib.rs:89-94 | Each of the three names selects its tool, and only that name does. |
| TauriCommands.ToolArgsMeaning | src-tauri/src/lib.rs:147-182 | The vector asks for the input and `-Area` iff `use_area_data`. AneuFiler never gets `-STD` or `-GBK`. The others get `-STD <trimmed name>` iff the trimmed name is not empty. `-GBK` goes only to SHCarrier, with `windows_optimization == Some(true)`. There is never `-dev`. |
| TauriCommands.StdPlaceholderDiffers | src-tauri/src/lib.rs:166-171 | "STD" is passed on as `-STD STD` (main.js drops it). |
| Text.TrimIsInfix | src-tauri/src/lib.rs:168 | The trimmed name is one slice of the input, with only whitespace around it. |
| Text.TrimmedEnds | src-tauri/src/lib.rs:168 | The trimmed name neither starts nor ends with whitespace. |
| Text.TrimEmptyIff | src-tauri/src/lib.rs:168 | A name trims to empty iff it is all whitespace. |
| TauriCommands.FileName | src-tauri/src/lib.rs:210 | `file_name` yields a real, separator-free component, or none. |
| TauriCommands.FileNameIsBasename | src-tauri/src/lib.rs:210-227 | On an ordinary path it agrees with Node's basename. |
| TauriCommands.FileResult | src-tauri/src/lib.rs:127-231 | A missing path gives `file_not_found` and the loop goes on. Otherwise success iff the exit status is success; a failure carries stderr, a launch error its message. `file_path` is always the path. There is no result exactly where `file_name().unwrap()` panics. |
| TauriCommands.ProcessFiles | src-tauri/src/lib.rs:84-236 | An unknown tool gives `Err(unknown_tool)` before any file. Otherwise there is one result per path, in input order, each `FileResult` of that path's run with `ToolArgs`. The command panics iff some existing path has no file name. |
| TauriCommands.GetMessage | src-tauri/src/lib.rs:16-42 | An unknown key is returned as it is; a known key gives its message in the requested language. |
| TauriCommands.ToolArgs | src-tauri/src/lib.rs:147-182 | The arguments always open with `-i` and the file path. |
| TauriCommands.CollectUntilNone | src-tauri/src/lib.rs:127-235 | The loop yields the value of every path, in order, or stops exactly when some path has none. |
| Analytics.ReadConsent | src/utils/analytics.ts:72-82 | `null` iff the item is missing, empty, unparsable or JSON null. The stored status iff it is a record. |
| Analytics.ActionFor | src/utils/analytics.ts:436-449 | Start tracking iff "granted"; ask the user iff no consent is recorded. |
| Analytics.Capped | src/utils/analytics.ts:194-204 | The new event is last and the list never exceeds 100. Below the cap all earlier events are kept in order; at the cap the length is 100. |
| Analytics.CappedDropsOldest | src/utils/analytics.ts:200-202 | On a full list exactly the oldest entry goes; the rest keep their order. |
| Analytics.NewestStep | src/utils/analytics.ts:191-208 | Caching one event onto the newest 100 of a history gives the newest 100 of the longer history. |
| Analytics.CacheAllKeepsNewest | src/utils/analytics.ts:191-208 | After any number of caching steps, the list is the newest 100 events of everything cached, oldest first. |
| Analytics.WithCached | src/utils/analytics.ts:191-208 | Only the offline-events key changes. An absent or blank item starts a list. A list gets `Capped`. Any other item is left as it was (the error is swallowed). |
| Analytics.CachedEachIsCacheAll | src/utils/analytics.ts:191-208 | Repeated `cacheOfflineEvent` on a store holding a list, or none, acts as repeated `Capped`. |
| Analytics.CachingFromEmptyKeepsNewest | src/utils/analytics.ts:191-208 | From an empty cache, storage holds the newest 100 events cached. |
| Analytics.RemoveAll | src/utils/analytics.ts:117-119 | The callback is gone; every other callback keeps its multiplicity. |
| Analytics.UnsubscribeUndoesSubscribe | src/utils/analytics.ts:115-120 | Unsubscribing right after subscribing restores the list, order included. |
| Analytics.PlatformInfo | src/utils/analytics.ts:50-58 | One of six names, each iff its own test passes after every earlier one failed: "Windows" iff "Win"; "macOS" iff "Mac" but not "Win"; "Linux", "Android" and "iOS" likewise in order; "Unknown" iff none of the seven markers. |
| Analytics.IPhoneReadsAsMac | src/utils/analytics.ts:50-58 | An iPhone agent ("like Mac OS X") is reported as macOS. |
| Analytics.FlushedCaptures | src/utils/analytics.ts:170-176 | One capture per cached event, in stored order, with `properties \|\| {}`. |
| Analytics.Announce | src/utils/analytics.ts:102 | Every callback hears the status, in registration order. |
| Analytics.AnalyticsManager.constructor | src/utils/analytics.ts:37-43 | The module state at load: the build configuration, nothing initialized, no callbacks, no listener. |
| Analytics.AnalyticsManager.SetConfig | src/utils/analytics.ts:64-66 | The given fields replace the current ones; nothing else changes. |
| Analytics.AnalyticsManager.ConsentStatus | src/utils/analytics.ts:72-82 | `getConsentStatus` reads the consent item through `ReadConsent`. |
| Analytics.AnalyticsManager.InitPostHog | src/utils/analytics.ts:125-160 | No `init` call when already initialized or the token is empty; otherwise one. Nothing else changes. |
| Analytics.AnalyticsManager.SetConsentStatus | src/utils/analytics.ts:88-107 | The record is stored and read back as the status. Every callback is notified in order. `init` is started only for "granted". |
| Analytics.AnalyticsManager.OnConsentChange | src/utils/analytics.ts:115-116 | The callback is appended; nothing else changes. |
| Analytics.AnalyticsManager.Unsubscribe | src/utils/analytics.ts:117-119 | Exactly that callback is removed; the others keep their order; nothing else changes. |
| Analytics.AnalyticsManager.FlushOfflineEvents | src/utils/analytics.ts:163-185 | Every cached event is captured in stored order, then the item is removed. An absent, empty or unreadable cache changes nothing. |
| Analytics.AnalyticsManager.CacheOfflineEvent | src/utils/analytics.ts:191-208 | Storage becomes `WithCached` of the old storage; nothing else changes. |
| Analytics.AnalyticsManager.TrackEvent | src/utils/analytics.ts:215-232 | Once initialized, the event is captured and nothing is cached. Before that it is cached only when online and dropped when offline. Nothing else changes. |
| Analytics.AnalyticsManager.StartProperties | src/utils/analytics.ts:148-152 | `app_started` carries the version ("unknown" when empty), the platform and the language. |
| Analytics.AnalyticsManager.OnPostHogLoaded | src/utils/analytics.ts:140-152 | Initialized. Cached events are captured first, then `app_started`; the cache item is removed when it held events and storage is otherwise untouched. Nothing else changes. |
| Analytics.AnalyticsManager.ReactToConsent | src/utils/analytics.ts:421-449 | "granted" starts `init` (subject to its guard); nothing recorded asks the user once; otherwise nothing happens. The token and every other field are kept. |
| Analytics.AnalyticsManager.InitAnalytics | src/utils/analytics.ts:419-455 | One more listener pair is registered, and only the newest cleanup function is kept. Nothing else changes. |
| Analytics.AnalyticsManager.OnNetworkChecked | src/utils/analytics.ts:436-454 | Offline does nothing; online acts on the stored consent exactly as `ReactToConsent`, for each of the three actions. Storage, captures, callbacks, listeners and the token are kept. |
| Analytics.AnalyticsManager.Cleanup | src/utils/analytics.ts:461-467 | The kept listener pair is removed and all callbacks are dropped. Nothing else changes. |
| NetworkGuard.CheckAnswer | src/utils/network-guard.ts:23-61 | A fresh status (set, and younger than 30 s) is answered from the cache; otherwise the probe's outcome. |
| NetworkGuard.AfterCheck | src/utils/network-guard.ts:27-59 | The cache then holds the answer. It is unchanged when fresh; otherwise it is stamped with `now`. |
| NetworkGuard.AnswerHoldsWithinWindow | src/utils/network-guard.ts:28-33 | Within 30 s of a check the same answer is given and the cache is not touched, whatever the network does. |
| NetworkGuard.ProbesAgainAfterWindow | src/utils/network-guard.ts:28-59 | After 30 s the next check probes and reports the probe. |
| NetworkGuard.ClearedAlwaysProbes | src/utils/network-guard.ts:161-164 | After clearing, the next check always probes. |
| NetworkGuard.OnlineEventMasksProbe | src/utils/network-guard.ts:130-133 | After an `online` event, checks in the next 30 s say "online" without probing, even when the host is unreachable. |
| NetworkGuard.Guard.constructor | src/utils/network-guard.ts:13-14 | Status `null`, time 0, no probes. |
| NetworkGuard.Guard.CheckApiConnectivity | src/utils/network-guard.ts:23-61 | Result `CheckAnswer` and new state `AfterCheck`. `<apiHost>/health` is requested exactly when the cache is not fresh. |
| NetworkGuard.Guard.ClearNetworkCache | src/utils/network-guard.ts:161-164 | The state becomes null/0. |
| NetworkGuard.Guard.ScheduledCheck | src/utils/network-guard.ts:82-92 | An offline browser gets `false` with no probe and no state change. Otherwise it gets the check of the default host, which probes only when the cache is stale. |
| NetworkGuard.Listener.constructor | src/utils/network-guard.ts:113-147 | Both listeners are attached; no timer is pending. |
| NetworkGuard.Listener.Online | src/utils/network-guard.ts:120-134 | The cache is set to online at `now`, and `onOnline` is (re)scheduled. |
| NetworkGuard.Listener.Offline | src/utils/network-guard.ts:136-144 | The pending `onOnline` is cancelled, the cache is set to offline at `now`, and `onOffline` runs. |
| NetworkGuard.Listener.DebounceElapsed | src/utils/network-guard.ts:125-127 | A pending `onOnline` runs once. |
| NetworkGuard.Listener.Remove | src/utils/network-guard.ts:150-156 | Detached and nothing pending. |
| NetworkGuard.OfflineCancelsPendingOnline | src/utils/network-guard.ts:120-144 | online, offline, then the debounce delay: `onOnline` never runs and the cache says offline. |
| Renderer.MaxConcurrency | renderer.js:186-195 | At least 1: the CPU count, or 1 when it is 0, missing or the query fails. |
| Renderer.Without | renderer.js:245-246 | The splice removes position `i` and keeps the others in order. |
| Renderer.WithoutRemovesOne | renderer.js:245-246 | Exactly one occurrence of the removed entry goes. |
| Renderer.Fields | renderer.js:357-375 | A refusal has only `error`; a summary has the three counts and no `error`. |
| Renderer.ClassifyAsWritten | renderer.js:357-369 | Success iff `successCount === totalFiles`; error iff not that and `successCount === 0`. |
| Renderer.RefusedReadsAsSuccess | renderer.js:357-369 | As written, a refused batch is shown in the success colour. |
| Renderer.Classify | renderer.js:357-369 | A refused batch is an error; a summary is classified as written. |
| Renderer.ClassifyMeaning | renderer.js:357-369 | On the summary of a complete batch: success iff all succeeded; error iff files were given and none succeeded; warning iff both kinds occur. |
| Renderer.ErrorDetailNeverShown | renderer.js:382-385 | No reply has both a positive `failureCount` and an `error`. |
| Renderer.NumberText | renderer.js:375 | A count prints as non-empty text. |
| Renderer.Decimal | renderer.js:375 | Decimal digits only, with no leading zero for a positive number. |
| Renderer.DecimalValue | renderer.js:375 | The digits denote the count. |
| Renderer.Page.constructor | renderer.js:180-181 | Nothing selected, concurrency 1. |
| Renderer.Page.InitCpuInfo | renderer.js:186-195 | Concurrency becomes `MaxConcurrency` of the reply. |
| Renderer.Page.UpdateSelectedFiles | renderer.js:201-209 | null selects nothing. The button is disabled iff the selection is empty. The status is cleared. |
| Renderer.Page.RemoveFile | renderer.js:243-249 | An index outside `[0, length)` changes nothing. A valid index removes exactly that entry, the others keeping their order; as in `updateSelectedFiles`, the status text is cleared, "success" and "error" are removed and the progress is hidden. |
| Renderer.Page.StartProcessing | renderer.js:289-335 | A request is made iff files are selected and a tool is chosen; otherwise the matching error is shown, "error" is added to the classes and nothing else changes. The request carries the selection, the trimmed standard name and the concurrency; making it removes exactly "success" and "error" from the classes (a left-over "warning" stays). |
| Renderer.Page.HandleProcessResult | renderer.js:351-379 | The outcome's colour class is added, the counts are shown, and the button is enabled iff files are selected. The progress display is left as it was. |
| Renderer.Page.HandleProcessFailure | renderer.js:338-344 | "Error: " followed by the message, or "Unknown error occurred.", in the error colour. The progress display is left as it was. |
| Renderer.StdNameIsTrimmed | renderer.js:320 | The standard name sent is already trimmed. |
| Text.TrimIdempotent | renderer.js:320 | Trimming twice is trimming once. |
| BuildAllPlatforms.GetPlatformBuilds | scripts/build-all-platforms.cjs:73-86 | darwin gives the macOS list, linux the Linux list, anything else the Windows list. |
| BuildAllPlatforms.Distinct | scripts/build-all-platforms.cjs:98 | The same members, each once. |
| BuildAllPlatforms.DistinctAppend | scripts/build-all-platforms.cjs:98 | A repeated value is skipped; a new one goes last (first-occurrence order). |
| BuildAllPlatforms.Targets | scripts/build-all-platforms.cjs:98 | Exactly the targets of the builds, each once. |
| BuildAllPlatforms.DistinctOfRepeat | scripts/build-all-platforms.cjs:98 | A value listed twice before another is kept once. |
| BuildAllPlatforms.WindowsTargets | scripts/build-all-platforms.cjs:15-38 | The three Windows builds need two targets, 32-bit first. |
| BuildAllPlatforms.UseTargetArg | scripts/build-all-platforms.cjs:206-235 | `--target` is left out iff the host builds the target natively. |
| BuildAllPlatforms.NativeTargets | scripts/build-all-platforms.cjs:206-235 | A host builds at most one target natively, and only a known platform and architecture build any. |
| BuildAllPlatforms.BundleType | scripts/build-all-platforms.cjs:238-243 | dmg iff the target contains "apple"; appimage iff "linux" but not "apple"; app otherwise. |
| BuildAllPlatforms.BuildCommand | scripts/build-all-platforms.cjs:245-247 | `npm run tauri -- build --`, then `--target <t>` when used, then `--bundles <type>`. |
| BuildAllPlatforms.TargetFlagIffUsed | scripts/build-all-platforms.cjs:245-247 | `--target` appears iff it is used. |
| BuildAllPlatforms.BuildEnvironment | scripts/build-all-platforms.cjs:198-203 | The entry's variables override the process's, and both signing variables are blank. |
| BuildAllPlatforms.EndingWith | scripts/build-all-platforms.cjs:267 | Exactly the listed files with the suffix; its first element is the first such file of the listing, the one that is copied. |
| BuildAllPlatforms.BuildOutcomeAsWritten | scripts/build-all-platforms.cjs:248-287 | A compile error is recorded as the failure. A compiled Windows build succeeds iff its `CMTools.exe` exists, and then copies it. |
| BuildAllPlatforms.NonWindowsBuildAlwaysFailsAsWritten | scripts/build-all-platforms.cjs:261-287 | As written, every macOS and Linux build fails, whatever it produced. |
| BuildAllPlatforms.BuildOutcome | scripts/build-all-platforms.cjs:248-287 | Windows is as written. A success names a file that exists. A compile error is a failure. A compiled non-Windows build succeeds iff the listing's first file with the bundle suffix exists in the bundle directory. |
| BuildAllPlatforms.BundledBuildSucceeds | scripts/build-all-platforms.cjs:261-290 | A non-Windows build that left its bundle succeeds and copies the first bundle of the listing. |
| BuildAllPlatforms.Successes | scripts/build-all-platforms.cjs:301-321 | Counts the successes; equals the length iff all succeeded. |
| BuildAllPlatforms.BuildRun.constructor | scripts/build-all-platforms.cjs:91-93 | Counters 0, no results. |
| BuildAllPlatforms.BuildRun.BuildVersion | scripts/build-all-platforms.cjs:187-323 | Exactly one entry is appended and exactly one counter goes up; the counters keep counting the entries. |
| BuildAllPlatforms.Entry | scripts/build-all-platforms.cjs:301-319 | An entry keeps the build's name and output and succeeds iff the build's outcome is a success. |
| BuildAllPlatforms.BuildRun.ExitCode | scripts/build-all-platforms.cjs:395-401 | 0 iff `failCount == 0`. |
| BuildAllPlatforms.EntriesAt | scripts/build-all-platforms.cjs:388-390 | Entry k of the run is the entry of build k. |
| BuildAllPlatforms.BuildEach | scripts/build-all-platforms.cjs:388-390 | The loop appends the entries of the builds, in list order, and keeps the counters counting them. |
| BuildAllPlatforms.RunAll | scripts/build-all-platforms.cjs:368-407 | A failed preparation exits 1 with no build. Otherwise one entry per build, in list order, and exit 0 iff every build succeeded. |
| BuildCurrentSystem.DetectSystemArchitecture | scripts/build-current-system.cjs:14-62 | A non-win32 host gives no target and "cmtools". ia32/x86 give the 32-bit target and `CMTools.x86.exe`. Every other architecture gives the 64-bit target and `CMTools.x64.exe`. |
| BuildCurrentSystem.CheckAndInstallTarget | scripts/build-current-system.cjs:64-84 | Nothing runs for no target. Otherwise a search, and an install when the search fails; the step fails iff both fail. |
| BuildCurrentSystem.BuildCommand | scripts/build-current-system.cjs:110-112 | `npm run tauri -- build`, then `-- --target <t>` when there is a target. |
| BuildCurrentSystem.TargetFlagIffTarget | scripts/build-current-system.cjs:110-112 | `--target` appears iff there is a target. |
| BuildCurrentSystem.Copy | scripts/build-current-system.cjs:116-137 | The copy step runs iff the target contains "windows", and throws iff the built executable is missing. |
| BuildCurrentSystem.SourcePath | scripts/build-current-system.cjs:118 | The path reads back the target it was built from, between `src-tauri/target/` and `/release/cmtools.exe`. |
| BuildCurrentSystem.WindowsTargetsNameWindows | scripts/build-current-system.cjs:33-46 | Both Windows targets contain "windows". |
| BuildCurrentSystem.ExitCode | scripts/build-current-system.cjs:150-180 | The exit status is 0 or 1. |
| BuildCurrentSystem.WindowsHostOutcome | scripts/build-current-system.cjs:150-180 | On Windows: 0 iff the target is available, both builds pass, and the executable is there. |
| BuildCurrentSystem.OtherHostOutcome | scripts/build-current-system.cjs:150-180 | Elsewhere: 0 iff both builds pass. |

## Left out

- Spawning processes is out of scope, as are stdout/stderr streaming and its progress messages, `Command::output`, and the Electron window, menu, theme, dialog and error-report-window handlers. These are I/O; their outcomes are parameters.
- The spawn-throw path of the batch handler (main.js:435-440) is out. It pushes a result and starts the next file inside the Promise executor without ever settling that promise, so its chain never completes. `Dispatch` assumes every started tool settles.
- The 100 ms drain poll (main.js:582-584) is out. `Drain` loops until `inProgress` is empty, which is what the poll waits for.
- Timers, `requestIdleCallback`, the debounce delay and the fetch timeout are out. Their elapsing is an explicit step (`Listener.DebounceElapsed`, `Guard.ScheduledCheck`) or a `now` argument.
- The PostHog SDK and `fetch` are out. They are reduced to a capture log, an `init` counter and a `reachable` flag.
- Floating-point values are out: the progress percentage, `success_rate`, average times, sizes in MB and build times.
- Temp-executable extraction in lib.rs (lines 96-125) is out: writing the embedded tool to the temp directory, and its four error returns. This is file I/O.
- Tauri's `open_file_directory` is out. It only opens a file manager.
- The `trackXxx` wrappers (src/utils/analytics.ts:237-412) are out. Each only builds properties and calls `trackEvent`.
- `cleanPreviousBuilds`, the script that cleans the build cache, and file copying and deletion are out. They are file-system effects over fixed lists. The failed `path.join` at scripts/build-all-platforms.cjs:148 sits inside a `try` that ignores it.
- `rustup`/`findstr` output parsing is out. The search and install results are the `listed`/`added` flags.
- MainDispatcher.Dispatch: `maxConcurrent` is taken as an integer. A non-numeric value (for which `Math.min` yields NaN and no chain starts) is covered only as the `maxConcurrent < 1` case.
- Analytics.AnalyticsManager.InitPostHog: the init options are not modelled, nor the `try` around `posthog.init`, which only logs. A second call before `loaded` fires calls `init` again, and the contract says so.
- Analytics.AnalyticsManager.InitAnalytics: the listener callbacks are not linked to a `NetworkGuard.Listener`. What they run is `ReactToConsent`, specified on its own.
- Renderer.Page.HandleProcessResult: the error-detail suffix (renderer.js:382-385) is not modelled, because no reply can reach it (`Renderer.ErrorDetailNeverShown`).
- Renderer.Page.HandleProcessResult uses the corrected classification `Classify`. The as-written one is `ClassifyAsWritten` (see Findings).
- TauriCommands.FileName models `Path::file_name` on POSIX paths only. Windows drive prefixes and backslashes are not modelled.
- NodePath models Node's POSIX `path` only, without normalisation. Trailing separators are not stripped (Node gives `basename("/a/b/")` as "b" and `dirname("a/")` as "."; the model gives "" and "a"), and `join` does not collapse `//` or `.` segments. On a Windows host main.js uses `path.win32`, which is not modelled. The output names are stated for input paths without a trailing separator.
- MainDispatcher.Batch keys running jobs by position rather than by path (main.js:387), so a listed-twice path is two jobs. This is the corrected behaviour; the as-written path keying is `StartAsWritten`/`FinishAsWritten` (see Findings).
- MainDispatcher.Dispatch: "every valid file gets exactly one result" is the corrected behaviour; as written, a repeated path loses a result (`DuplicatePathEndsDrainEarly`).
- MainDispatcher.ProcessFiles inherits the corrected position keying from `Dispatch`.
- BuildAllPlatforms.Entry uses the corrected `BuildOutcome`. As written (`BuildOutcomeAsWritten`), every macOS and Linux build fails (see Findings).
- BuildAllPlatforms.BuildRun.BuildVersion appends an `Entry`, so it also uses the corrected outcome.
- BuildAllPlatforms.RunAll uses the corrected outcome; as written, a macOS or Linux host records only failures and exits 1.
- Analytics.AnalyticsManager.SetConsentStatus: a throwing `localStorage.setItem` (src/utils/analytics.ts:95-99) is not modelled. There the record is not stored, but the callbacks still fire.
- Analytics.AnalyticsManager.FlushOfflineEvents and TrackEvent: a throwing `posthog.capture` (src/utils/analytics.ts:172-176, 227-231) is not modelled. The capture log records each call; whether the SDK delivered it is not modelled, and the flush goes on either way, as in the source.
- Renderer.Page.HandleProcessResult: the progress-bar classes are not modelled, only the status text, its colour class and the button.
- Analytics.WithCached: a throwing `localStorage.setItem` when storage is full or unavailable (src/utils/analytics.ts:204-206) is not modelled. There nothing is written and the event is lost; the model always writes the capped list.
- Analytics.AnalyticsManager.CacheOfflineEvent inherits that gap from `WithCached`: a failed write is not modelled.
- TrackEvent (Analytics.AnalyticsManager.TrackEvent) caches through `WithCached`, so a failed write of the offline cache is not modelled there either.
- NetworkGuard.Guard.CheckApiConnectivity: the probe is one atomic step. In the source, `now` is read before `await fetch` and the status is stored after it (src/utils/network-guard.ts:27-58). An `online`/`offline` event or a second check during the request is overwritten by the probe's result, stamped with the earlier time; that interleaving is not modelled.

## Findings

| source | as written | input that shows it | evidently intended | confidence | as-written member | corrected member |
|---|---|---|---|---|---|---|
| renderer.js:357-369 | A refused batch reply (main.js:336-338, 378-381) has no `successCount` or `totalFiles`. `undefined === undefined` holds, so it gets the "success" class. | `{success: false, error: "No valid files to process"}` | A refusal processed nothing and should show as an error. | not executed | Renderer.RefusedReadsAsSuccess | Renderer.Classify |
| scripts/build-all-platforms.cjs:269 | `path` is never required, so `path.join` throws a ReferenceError once a bundle is found. With no bundle the source path is undefined, which throws too. Every macOS and Linux build is counted as a failure. | darwin host, a compiled build with `CMTools.dmg` in the dmg bundle directory | The bundle is copied and the build counted as a success. | not executed | BuildAllPlatforms.NonWindowsBuildAlwaysFailsAsWritten | BuildAllPlatforms.BundledBuildSucceeds |
| main.js:387 | `inProgress` is a `Set` keyed by path. When a path is listed twice, finishing one copy deletes the entry the other copy still needs, so the drain loop ends with a job still running and its result missing. The file dialog normally returns distinct paths, so this needs a caller that repeats one. | `filePaths = ["a", "b", "a"]`, `maxConcurrent = 2`, "b" settles first | Each job is counted once: one result per listed file. | not executed | MainDispatcher.DuplicatePathEndsDrainEarly | MainDispatcher.Dispatch |
