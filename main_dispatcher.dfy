/** The batch handler `process-files` of the Electron main process
    (main.js:329-604): existing inputs are queued, at most `maxConcurrent`
    tool processes run at once, every finished job starts the next queued
    one, and the results are summed up into the reply sent to the renderer. */
module MainDispatcher {
  import opened Wrappers
  import opened MainCommand

  /** `filePaths.filter(fs.existsSync)`. */
  function ExistingFiles(paths: seq<string>, onDisk: set<string>): (r: seq<string>)
    ensures |r| <= |paths|
    ensures forall p :: p in r <==> p in paths && p in onDisk
  {
    if paths == [] then []
    else
      var rest := ExistingFiles(paths[1..], onDisk);
      assert forall p :: p in paths <==> p == paths[0] || p in paths[1..];
      if paths[0] in onDisk then [paths[0]] + rest else rest
  }

  /** Every existing path is kept as many times as it is listed, and no
      other path is kept. */
  lemma {:induction false} ExistingFilesCounts(paths: seq<string>, onDisk: set<string>)
    ensures forall p :: multiset(ExistingFiles(paths, onDisk))[p]
                        == if p in onDisk then multiset(paths)[p] else 0
    decreases |paths|
  {
    if paths != [] {
      ExistingFilesCounts(paths[1..], onDisk);
      assert paths == [paths[0]] + paths[1..];
      assert multiset(paths) == multiset{paths[0]} + multiset(paths[1..]);
    }
  }

  /** Filtering keeps the input order: it distributes over concatenation. */
  lemma {:induction false} ExistingFilesAppend(a: seq<string>, b: seq<string>, onDisk: set<string>)
    ensures ExistingFiles(a + b, onDisk) == ExistingFiles(a, onDisk) + ExistingFiles(b, onDisk)
    decreases |a|
  {
    if a == [] {
      assert a + b == b;
    } else {
      assert (a + b)[0] == a[0];
      assert (a + b)[1..] == a[1..] + b;
      ExistingFilesAppend(a[1..], b, onDisk);
      var head := if a[0] in onDisk then [a[0]] else [];
      assert ExistingFiles(a, onDisk) == head + ExistingFiles(a[1..], onDisk);
      assert ExistingFiles(a + b, onDisk) == head + ExistingFiles(a[1..] + b, onDisk);
    }
  }

  /** The bookkeeping of one batch: the `queue` of paths not yet started,
      the jobs `inProgress`, the `results` pushed so far and the `completed`
      counter. A running job is remembered by its position in `files`, so
      that a path listed twice is two jobs (main.js keys the set by path;
      see `DuplicatePathEndsDrainEarly`). */
  class Batch {
    const files: seq<string>
    var queue: seq<string>
    var inProgress: set<nat>
    var results: seq<JobResult>
    var completed: nat
    /** Positions of the finished jobs, in the order they finished. */
    ghost var finished: seq<nat>
    /** The largest number of jobs that have been running at once. */
    ghost var peak: nat

    /** The queue is the untouched tail of `files`; every started file is
        running or finished, never both and never twice, so that
        `queue.length + inProgress.size + completed` is the number of files;
        results match the finished jobs and `completed` counts them;
        `peak` is at least the number running now. */
    ghost predicate Valid()
      reads this
    {
      |queue| <= |files| && queue == files[|files| - |queue|..]
      && (forall j :: j in inProgress ==> j < |files| - |queue|)
      && (forall k :: 0 <= k < |finished| ==> finished[k] < |files| - |queue| && finished[k] !in inProgress)
      && (forall k, l :: 0 <= k < l < |finished| ==> finished[k] != finished[l])
      && |queue| + |inProgress| + completed == |files|
      && |results| == |finished| == completed
      && (forall k :: 0 <= k < |results| ==> results[k].filePath == files[finished[k]])
      && |inProgress| <= peak
    }

    /** `queue = [...validFiles]`, nothing running, nothing done. */
    constructor (files: seq<string>)
      ensures this.files == files && queue == files
      ensures inProgress == {} && results == [] && completed == 0 && finished == []
      ensures peak == 0
      ensures Valid()
    {
      this.files := files;
      queue := files;
      inProgress := {};
      results := [];
      completed := 0;
      finished := [];
      peak := 0;
    }

    /** `processNext`: take the front of the queue and start it. */
    method ProcessNext()
      requires Valid()
      modifies this
      ensures Valid()
      ensures results == old(results) && completed == old(completed) && finished == old(finished)
      ensures old(queue) == [] ==> queue == [] && inProgress == old(inProgress)
      ensures old(queue) != [] ==>
                (queue == old(queue)[1..] && inProgress == old(inProgress) + {|files| - |old(queue)|})
      ensures |inProgress| == old(|inProgress|) + (if old(queue) == [] then 0 else 1)
      ensures peak == if |inProgress| > old(peak) then |inProgress| else old(peak)
    {
      if queue == [] {
        return;
      }
      var j := |files| - |queue|;
      queue := queue[1..];
      assert j !in inProgress;
      inProgress := inProgress + {j};
      if |inProgress| > peak {
        peak := |inProgress|;
      }
    }

    /** What follows a settled job in `processNext`: push its result, drop it
        from `inProgress`, count it, and start the next queued file. */
    method Finish(j: nat, r: JobResult)
      requires Valid() && j in inProgress && r.filePath == files[j]
      modifies this
      ensures Valid()
      ensures results == old(results) + [r] && finished == old(finished) + [j]
      ensures completed == old(completed) + 1
      ensures old(queue) == [] ==> queue == [] && inProgress == old(inProgress) - {j}
      ensures old(queue) != [] ==>
                (queue == old(queue)[1..] && inProgress == old(inProgress) - {j} + {|files| - |old(queue)|})
      ensures |inProgress| == old(|inProgress|) - (if old(queue) == [] then 1 else 0)
      ensures peak == old(peak)
    {
      results := results + [r];
      var before := inProgress;
      inProgress := inProgress - {j};
      assert before == inProgress + {j};
      finished := finished + [j];
      completed := completed + 1;
      ProcessNext();
    }
  }

  /** The number of successful results, `results.filter(r => r.success).length`. */
  function CountSuccess(rs: seq<JobResult>): (n: nat)
    ensures n <= |rs|
    ensures n == 0 <==> forall k :: 0 <= k < |rs| ==> !rs[k].Success()
  {
    if rs == [] then 0
    else (if rs[0].Success() then 1 else 0) + CountSuccess(rs[1..])
  }

  /** The failed results in order, `results.filter(r => !r.success)`. */
  function Failures(rs: seq<JobResult>): (f: seq<JobResult>)
    ensures |f| <= |rs|
    ensures forall r :: r in f <==> r in rs && !r.Success()
    ensures f == [] <==> forall k :: 0 <= k < |rs| ==> rs[k].Success()
  {
    if rs == [] then []
    else
      assert forall r :: r in rs <==> r == rs[0] || r in rs[1..];
      (if rs[0].Success() then [] else [rs[0]]) + Failures(rs[1..])
  }

  /** Every result is counted as a success or listed as a failure, never both. */
  lemma {:induction false} SuccessesAndFailures(rs: seq<JobResult>)
    ensures CountSuccess(rs) + |Failures(rs)| == |rs|
    decreases |rs|
  {
    if rs != [] {
      SuccessesAndFailures(rs[1..]);
    }
  }

  /** What `process-files` resolves with: an early refusal, or the summary.
      `errorReport` lists the results shown in the error report window,
      which opens only when it is non-empty. */
  datatype BatchReply =
    | BatchRefused(error: string)
    | BatchSummary(
        success: bool,
        totalFiles: nat,
        successCount: nat,
        failureCount: int,
        results: seq<JobResult>,
        errorReport: seq<JobResult>)

  /** The aggregation at the end of the handler. */
  function Summarize(totalFiles: nat, results: seq<JobResult>): (r: BatchReply)
    ensures r.BatchSummary? && r.totalFiles == totalFiles && r.results == results
    ensures r.successCount <= |results|
    ensures r.success <==> exists k :: 0 <= k < |results| && results[k].Success()
    ensures r.failureCount == totalFiles - r.successCount
    ensures forall x :: x in r.errorReport <==> x in results && !x.Success()
    ensures r.errorReport == [] <==> forall k :: 0 <= k < |results| ==> results[k].Success()
  {
    var successCount := CountSuccess(results);
    BatchSummary(successCount > 0, totalFiles, successCount, totalFiles - successCount,
                 results, Failures(results))
  }

  /** When every file has a result, the failure count is the number of
      failed results, i.e. the length of the error report. */
  lemma FailureCountMatchesReport(totalFiles: nat, results: seq<JobResult>)
    requires |results| == totalFiles
    ensures Summarize(totalFiles, results).failureCount == |Summarize(totalFiles, results).errorReport|
    ensures Summarize(totalFiles, results).failureCount >= 0
  {
    SuccessesAndFailures(results);
  }

  function Min(a: int, b: int): int {
    if a < b then a else b
  }

  /** `n` distinct positions below `n` are all the positions below `n`. */
  lemma {:induction false} DistinctPositionsCover(xs: seq<nat>, n: nat)
    requires |xs| == n
    requires forall k :: 0 <= k < |xs| ==> xs[k] < n
    requires forall k, l :: 0 <= k < l < |xs| ==> xs[k] != xs[l]
    ensures forall j :: 0 <= j < n ==> j in xs
    decreases n
  {
    if n > 0 {
      // Drop the last position; where the dropped value was not `n - 1`,
      // it takes the place of `n - 1` in the prefix.
      var m := xs[n - 1];
      var zs := seq(n - 1, k requires 0 <= k < n - 1 => if xs[k] == n - 1 then m else xs[k]);
      forall k | 0 <= k < |zs| ensures zs[k] < n - 1 {
        if xs[k] == n - 1 {
          assert xs[k] != xs[n - 1];
        }
      }
      forall k, l | 0 <= k < l < |zs| ensures zs[k] != zs[l] {
        assert xs[k] != xs[l] && xs[k] != xs[n - 1] && xs[l] != xs[n - 1];
      }
      DistinctPositionsCover(zs, n - 1);
      forall j | 0 <= j < n ensures j in xs {
        if j == m {
          assert xs[n - 1] == j;
        } else if j < n - 1 {
          assert j in zs;
          var k :| 0 <= k < |zs| && zs[k] == j;
          assert xs[k] == j;
        } else {
          assert m < n - 1 && m in zs;
          var k :| 0 <= k < |zs| && zs[k] == m;
          assert xs[k] != xs[n - 1];
          assert xs[k] == j;
        }
      }
    }
  }

  /** The dispatch part of `process-files` on the existing files `valid`:
      `initialBatch = Math.min(maxConcurrent, queue.length)` chains start,
      then each settled job starts the next queued file until nothing runs.
      `outcome(j)` is how the tool run on `valid[j]` ends; which running job
      settles next is chosen freely, so the contract holds for every
      schedule. `order` is the positions of the files in the order their
      results were pushed, `peak` the largest number of tools that ran at
      once over the whole run. */
  method Dispatch(valid: seq<string>, maxConcurrent: int, outcome: nat -> ProcessEvent)
    returns (results: seq<JobResult>, ghost order: seq<nat>, ghost peak: nat)
    ensures |results| == |order|
    ensures forall k :: 0 <= k < |order| ==>
              order[k] < |valid| && results[k] == BatchJobResult(valid[order[k]], outcome(order[k]))
    ensures forall k, l :: 0 <= k < l < |order| ==> order[k] != order[l]
    ensures maxConcurrent >= 1 ==>
              |order| == |valid| && (forall j :: 0 <= j < |valid| ==> j in order)
    ensures maxConcurrent >= 1 ==> peak == Min(maxConcurrent, |valid|)
    ensures maxConcurrent < 1 ==> order == [] && peak == 0
    ensures maxConcurrent == 1 ==> forall k :: 0 <= k < |order| ==> order[k] == k
  {
    var b := new Batch(valid);
    StartChains(b, Min(maxConcurrent, |b.queue|));
    Drain(b, outcome, maxConcurrent == 1);
    peak := b.peak;
    if maxConcurrent >= 1 {
      DistinctPositionsCover(b.finished, |valid|);
    }
    order := b.finished;
    results := b.results;
  }

  /** The loop that starts `initialBatch` chains, each taking one file from
      the front of the queue. */
  method StartChains(b: Batch, initialBatch: int)
    requires b.Valid() && b.results == [] && b.finished == [] && b.inProgress == {}
    requires b.queue == b.files && initialBatch <= |b.files| && b.peak == 0
    modifies b
    ensures b.Valid() && b.results == [] && b.finished == []
    ensures |b.inProgress| == (if initialBatch < 0 then 0 else initialBatch)
    ensures b.peak == |b.inProgress|
    ensures forall j: nat :: j in b.inProgress <==> j < initialBatch
  {
    var i := 0;
    while i < initialBatch
      invariant b.Valid() && b.results == [] && b.finished == []
      invariant 0 <= i && (i <= initialBatch || i == 0)
      invariant |b.inProgress| == i && |b.queue| == |b.files| - i
      invariant b.peak == i
      invariant forall j: nat :: j in b.inProgress <==> j < i
    {
      b.ProcessNext();
      i := i + 1;
    }
  }

  /** The chains run until nothing is in progress, `outcome(j)` settling
      the job on the j-th file. While files are queued the number of running
      jobs stays what it was, so the queue is emptied unless nothing was
      started; with a single chain (`sequential`), jobs finish in input
      order. */
  method Drain(b: Batch, outcome: nat -> ProcessEvent, ghost sequential: bool)
    requires b.Valid()
    requires forall k :: 0 <= k < |b.results| ==>
               b.results[k] == BatchJobResult(b.files[b.finished[k]], outcome(b.finished[k]))
    requires sequential ==> (forall k :: 0 <= k < |b.finished| ==> b.finished[k] == k)
                            && (forall j :: j in b.inProgress ==> j == |b.finished|)
    modifies b
    ensures b.Valid() && b.inProgress == {} && b.peak == old(b.peak)
    ensures old(b.inProgress) != {} ==> b.queue == []
    ensures old(b.inProgress) == {} ==> b.finished == old(b.finished)
    ensures forall k :: 0 <= k < |b.results| ==>
              b.results[k] == BatchJobResult(b.files[b.finished[k]], outcome(b.finished[k]))
    ensures sequential ==> forall k :: 0 <= k < |b.finished| ==> b.finished[k] == k
  {
    ghost var width := |b.inProgress|;
    while |b.inProgress| > 0
      invariant b.Valid()
      invariant |b.inProgress| <= width && b.peak == old(b.peak)
      invariant b.queue != [] ==> |b.inProgress| == width
      invariant width == 0 ==> b.finished == old(b.finished)
      invariant forall k :: 0 <= k < |b.results| ==>
                  b.results[k] == BatchJobResult(b.files[b.finished[k]], outcome(b.finished[k]))
      invariant sequential ==> (forall k :: 0 <= k < |b.finished| ==> b.finished[k] == k)
                               && (forall j :: j in b.inProgress ==> j == |b.finished|)
      decreases 2 * |b.queue| + |b.inProgress|
    {
      var j :| j in b.inProgress;
      if sequential {
        assert b.inProgress == {j};
      }
      b.Finish(j, BatchJobResult(b.files[j], outcome(j)));
    }
  }

  /** The `process-files` handler. `onDisk` answers `fs.existsSync`; the
      other parameters are as for `Dispatch`. */
  method ProcessFiles(filePaths: seq<string>, o: Options, maxConcurrent: int, rt: Runtime,
                      onDisk: set<string>, outcome: nat -> ProcessEvent)
    returns (reply: BatchReply, ghost order: seq<nat>, ghost peak: nat)
    ensures var valid := ExistingFiles(filePaths, onDisk);
            valid == [] ==> reply == BatchRefused("No valid files to process")
    ensures var valid := ExistingFiles(filePaths, onDisk);
            var located := LocateExecutable(rt, ExeFileName(o), onDisk);
            valid != [] && located.Err? ==> reply == BatchRefused(located.error)
    ensures var valid := ExistingFiles(filePaths, onDisk);
            var located := LocateExecutable(rt, ExeFileName(o), onDisk);
            valid != [] && located.Ok? ==>
              reply.BatchSummary? && reply == Summarize(|valid|, reply.results)
              && |reply.results| == |order|
              && (forall k :: 0 <= k < |order| ==>
                    order[k] < |valid| && reply.results[k] == BatchJobResult(valid[order[k]], outcome(order[k])))
              && (forall k, l :: 0 <= k < l < |order| ==> order[k] != order[l])
              && (maxConcurrent >= 1 ==>
                    |order| == |valid| && (forall j :: 0 <= j < |valid| ==> j in order)
                    && peak == Min(maxConcurrent, |valid|))
              && (maxConcurrent < 1 ==> order == [] && peak == 0)
              && (maxConcurrent == 1 ==> forall k :: 0 <= k < |order| ==> order[k] == k)
  {
    order := [];
    peak := 0;
    var valid := ExistingFiles(filePaths, onDisk);
    if |valid| == 0 {
      reply := BatchRefused("No valid files to process");
      return;
    }
    var located := LocateExecutable(rt, ExeFileName(o), onDisk);
    if located.Err? {
      reply := BatchRefused(located.error);
      return;
    }
    var results;
    results, order, peak := Dispatch(valid, maxConcurrent, outcome);
    reply := Summarize(|valid|, results);
  }

  /** The bookkeeping as main.js writes it: running jobs are remembered by
      path, in a `Set`. */
  datatype PathBookkeeping = PathBookkeeping(
    queue: seq<string>,
    inProgress: set<string>,
    results: seq<JobResult>,
    completed: nat)

  /** `processNext` with path-keyed bookkeeping. */
  function StartAsWritten(s: PathBookkeeping): (t: PathBookkeeping)
    ensures s.queue != [] ==> t.queue == s.queue[1..] && t.inProgress == s.inProgress + {s.queue[0]}
    ensures s.queue == [] ==> t == s
  {
    if s.queue == [] then s
    else s.(queue := s.queue[1..], inProgress := s.inProgress + {s.queue[0]})
  }

  /** A job on `path` settles with `r`: push, delete the path, count, start
      the next one. */
  function FinishAsWritten(s: PathBookkeeping, path: string, r: JobResult): (t: PathBookkeeping)
    ensures t.results == s.results + [r] && t.completed == s.completed + 1
    ensures path !in t.inProgress || (s.queue != [] && s.queue[0] == path)
  {
    StartAsWritten(s.(results := s.results + [r], inProgress := s.inProgress - {path},
                      completed := s.completed + 1))
  }

  /** With the list ["a", "b", "a"] and two chains, let "b" finish first
      (which starts the second "a") and then the first "a". The set
      `inProgress` is now empty although the second "a" is still running, so
      the drain loop stops: two results for three files, and
      `queue.length + inProgress.size + completed` has lost a job. */
  lemma DuplicatePathEndsDrainEarly(rb: JobResult, ra: JobResult)
    requires rb.filePath == "b" && ra.filePath == "a"
    ensures var s0 := PathBookkeeping(["a", "b", "a"], {}, [], 0);
            var s1 := StartAsWritten(StartAsWritten(s0));
            var s2 := FinishAsWritten(s1, "b", rb);
            var s3 := FinishAsWritten(s2, "a", ra);
            s3.queue == [] && s3.inProgress == {} && |s3.results| == 2
            && |s3.queue| + |s3.inProgress| + s3.completed == 2
  {
    var s0 := PathBookkeeping(["a", "b", "a"], {}, [], 0);
    var s1 := StartAsWritten(StartAsWritten(s0));
    assert s1.queue == ["a"] && s1.inProgress == {"a", "b"};
    var s2 := FinishAsWritten(s1, "b", rb);
    assert s2.queue == [] && s2.inProgress == {"a"};
  }
}
