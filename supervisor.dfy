/**
 * The Electron main process's job handling (FrontEnd/electron.js): the one
 * global `pythonProcess` slot, the per-launch job with its accumulated
 * output and error text, the events it has sent to the renderer, the signals
 * delivered to its process and how its promise settled.
 */
module Supervisor {
  import opened Wrappers
  import opened Strings
  import opened JsBuiltins
  import opened Protocol

  /** The renderer's request: `{ boardUrl, duration, recencyWeight, numImages }`. */
  datatype Options = Options(boardUrl: string, duration: JsValue, recencyWeight: JsValue, numImages: JsValue)

  /** What the host contributes: its platform, the application root, whether the venv exists. */
  datatype Host = Host(platform: string, appRoot: string, venvExists: bool)

  /** The reply to `cancel-generation`: `{ success }` or `{ success, message }`. */
  datatype CancelReply = CancelReply(success: bool, message: Option<string>)

  const NoProcessRunning: string := "No process running"

  /** Building the argument vector throws when one of the converted options is null. */
  predicate ThrowsBeforeSpawn(options: Options) {
    options.duration == JsNull || options.recencyWeight == JsNull || options.numImages == JsNull
  }

  /**
   * The argument vector for the options: the script, the board URL, the
   * converted duration and recency weight, and `--num-images` with the
   * converted count unless the count is the string 'auto'.
   */
  predicate IsArgVector(args: seq<string>, script: string, options: Options)
    requires !ThrowsBeforeSpawn(options)
  {
    && |args| == (if options.numImages == JsString("auto") then 7 else 9)
    && args[..7] == [script, "--board-url", options.boardUrl,
                     "--duration", ToString(options.duration).value,
                     "--recency-weight", ToString(options.recencyWeight).value]
    && (|args| == 9 ==> args[7..] == ["--num-images", ToString(options.numImages).value])
  }

  /**
   * The argument vector, built by pushing onto an array. Each `toString` of a
   * null option throws a TypeError, which rejects the request before any
   * process is spawned.
   */
  method BuildArgs(script: string, options: Options) returns (r: Result<seq<string>, string>)
    ensures r.Err? <==> ThrowsBeforeSpawn(options)
    ensures r.Ok? ==> IsArgVector(r.value, script, options)
  {
    var duration := ToString(options.duration);
    if duration.Err? {
      return Err(duration.error);
    }
    var recencyWeight := ToString(options.recencyWeight);
    if recencyWeight.Err? {
      return Err(recencyWeight.error);
    }
    var args := [script, "--board-url", options.boardUrl, "--duration", duration.value,
                 "--recency-weight", recencyWeight.value];
    if options.numImages != JsString("auto") {
      var count := ToString(options.numImages);
      if count.Err? {
        return Err(count.error);
      }
      args := args + ["--num-images", count.value];
    }
    return Ok(args);
  }

  /** One launch: its child process, the text it has produced and how its promise settled. */
  class Job {
    const executable: string
    const args: seq<string>
    const defaultVideoPath: string
    var outputData: string
    var errorData: string
    var sent: seq<Event>
    var signals: seq<string>
    var settlement: Option<Settlement>

    constructor (executable: string, args: seq<string>, defaultVideoPath: string)
      ensures this.executable == executable && this.args == args
      ensures this.defaultVideoPath == defaultVideoPath
      ensures outputData == "" && errorData == "" && sent == [] && signals == []
      ensures settlement == None
    {
      this.executable := executable;
      this.args := args;
      this.defaultVideoPath := defaultVideoPath;
      outputData := "";
      errorData := "";
      sent := [];
      signals := [];
      settlement := None;
    }

    /**
     * A `data` chunk on standard output: it is appended to the output text,
     * and its lines are classified one by one, each event sent in order.
     */
    method OnStdout(chunk: string)
      modifies this
      ensures outputData == old(outputData) + chunk
      ensures sent == old(sent) + ChunkEvents(chunk)
      ensures errorData == old(errorData) && signals == old(signals) && settlement == old(settlement)
    {
      outputData := outputData + chunk;
      OnLines(SplitOn(chunk, '\n'));
    }

    /** The `forEach` over the lines of a chunk: each line's event, if any, is sent in turn. */
    method OnLines(lines: seq<string>)
      modifies this
      ensures sent == old(sent) + LinesEvents(lines)
      ensures outputData == old(outputData) && errorData == old(errorData)
      ensures signals == old(signals) && settlement == old(settlement)
    {
      var i := 0;
      while i < |lines|
        invariant 0 <= i <= |lines|
        invariant sent == old(sent) + LinesEvents(lines[..i])
        invariant outputData == old(outputData) && errorData == old(errorData)
        invariant signals == old(signals) && settlement == old(settlement)
      {
        ghost var before := LinesEvents(lines[..i]);
        OnLine(lines[i]);
        assert LinesEvents(lines[..i + 1]) == before + ClassifyLine(lines[i]) by {
          LinesEventsStep(lines, i);
        }
        i := i + 1;
      }
      assert lines[..i] == lines;
    }

    /** The `forEach` callback for one line of a chunk: at most one event is sent. */
    method OnLine(line: string)
      modifies this
      ensures sent == old(sent) + ClassifyLine(line)
      ensures outputData == old(outputData) && errorData == old(errorData)
      ensures signals == old(signals) && settlement == old(settlement)
    {
      if StartsWith(line, "PROGRESS:") {
        ProgressField(line);
        var fields := SplitOn(line, ':');
        sent := sent + [Progress(ParseInt(fields[1]))];
      } else if StartsWith(line, "STATUS:") {
        sent := sent + [Status(Trim(line[7..]))];
      }
    }

    /** A `data` chunk on standard error is appended to the error text. */
    method OnStderr(chunk: string)
      modifies this
      ensures errorData == old(errorData) + chunk
      ensures outputData == old(outputData) && sent == old(sent)
      ensures signals == old(signals) && settlement == old(settlement)
    {
      errorData := errorData + chunk;
    }

    /** A promise settles once: later resolutions and rejections are ignored. */
    method Settle(s: Settlement)
      modifies this
      ensures settlement == if old(settlement).None? then Some(s) else old(settlement)
      ensures outputData == old(outputData) && errorData == old(errorData)
      ensures sent == old(sent) && signals == old(signals)
    {
      if settlement.None? {
        settlement := Some(s);
      }
    }

    /** `kill(signal)`: the signal is delivered to the child process. */
    method Kill(signal: string)
      modifies this
      ensures signals == old(signals) + [signal]
      ensures outputData == old(outputData) && errorData == old(errorData)
      ensures sent == old(sent) && settlement == old(settlement)
    {
      signals := signals + [signal];
    }
  }

  /** The main process's job state: the single `pythonProcess` slot. */
  class Orchestrator {
    var pythonProcess: Job?

    constructor ()
      ensures pythonProcess == null
    {
      pythonProcess := null;
    }

    /**
     * `generate-slideshow`: build the executable and arguments, spawn, and
     * put the new process in the slot, overwriting whatever was there. When
     * building the arguments throws, the promise rejects and the slot is left
     * as it was.
     */
    method GenerateSlideshow(host: Host, options: Options) returns (job: Job)
      modifies this
      ensures fresh(job)
      ensures job.executable == PythonExecutable(host.venvExists, host.platform, host.appRoot)
      ensures job.defaultVideoPath == DefaultVideoPath(host.platform, host.appRoot)
      ensures job.outputData == "" && job.errorData == "" && job.sent == [] && job.signals == []
      ensures ThrowsBeforeSpawn(options) ==>
        && job.settlement.Some? && job.settlement.value.Threw?
        && pythonProcess == old(pythonProcess)
      ensures !ThrowsBeforeSpawn(options) ==>
        && job.settlement == None
        && IsArgVector(job.args, ScriptPath(host.platform, host.appRoot), options)
        && pythonProcess == job
    {
      var script := ScriptPath(host.platform, host.appRoot);
      var executable := PythonExecutable(host.venvExists, host.platform, host.appRoot);
      var defaultVideoPath := DefaultVideoPath(host.platform, host.appRoot);
      var args := BuildArgs(script, options);
      if args.Err? {
        job := new Job(executable, [], defaultVideoPath);
        job.Settle(Threw(args.error));
      } else {
        job := new Job(executable, args.value, defaultVideoPath);
        pythonProcess := job;
      }
    }

    /**
     * The `close` event of a job's process: the slot is cleared whichever
     * process it holds, and the job's promise settles on the exit code.
     */
    method OnClose(job: Job, code: Option<int>)
      modifies this, job
      ensures pythonProcess == null
      ensures job.settlement == if old(job.settlement).None?
        then Some(CloseResult(code, job.outputData, job.errorData, job.defaultVideoPath))
        else old(job.settlement)
      ensures job.outputData == old(job.outputData) && job.errorData == old(job.errorData)
      ensures job.sent == old(job.sent) && job.signals == old(job.signals)
    {
      pythonProcess := null;
      job.Settle(CloseResult(code, job.outputData, job.errorData, job.defaultVideoPath));
    }

    /** The `error` event of a job's process: the slot is cleared and the promise rejects. */
    method OnError(job: Job, message: string)
      modifies this, job
      ensures pythonProcess == null
      ensures job.settlement == if old(job.settlement).None?
        then Some(SpawnErrorResult(message)) else old(job.settlement)
      ensures job.outputData == old(job.outputData) && job.errorData == old(job.errorData)
      ensures job.sent == old(job.sent) && job.signals == old(job.signals)
    {
      pythonProcess := null;
      job.Settle(SpawnErrorResult(message));
    }

    /**
     * `cancel-generation`: with a process in the slot, send it SIGTERM, clear
     * the slot and report success; otherwise report that nothing runs.
     */
    method Cancel() returns (reply: CancelReply)
      modifies this, pythonProcess
      ensures pythonProcess == null
      ensures reply.success <==> old(pythonProcess) != null
      ensures reply.success ==> reply.message == None
      ensures !reply.success ==> reply.message == Some(NoProcessRunning)
      ensures old(pythonProcess) != null ==>
        && old(pythonProcess).signals == old(pythonProcess.signals) + ["SIGTERM"]
        && old(pythonProcess).settlement == old(pythonProcess.settlement)
        && old(pythonProcess).outputData == old(pythonProcess.outputData)
        && old(pythonProcess).errorData == old(pythonProcess.errorData)
        && old(pythonProcess).sent == old(pythonProcess.sent)
    {
      if pythonProcess != null {
        pythonProcess.Kill("SIGTERM");
        pythonProcess := null;
        return CancelReply(true, None);
      }
      return CancelReply(false, Some(NoProcessRunning));
    }

    /** The window's `closed` event: a process in the slot is killed, and the slot keeps it. */
    method OnWindowClosed()
      modifies pythonProcess
      ensures pythonProcess == old(pythonProcess)
      ensures pythonProcess != null ==>
        && pythonProcess.signals == old(pythonProcess.signals) + ["SIGTERM"]
        && pythonProcess.settlement == old(pythonProcess.settlement)
        && pythonProcess.outputData == old(pythonProcess.outputData)
        && pythonProcess.errorData == old(pythonProcess.errorData)
        && pythonProcess.sent == old(pythonProcess.sent)
    {
      if pythonProcess != null {
        pythonProcess.Kill("SIGTERM");
      }
    }
  }

  /** Cancelling twice: the first call stops the job, the second finds nothing to stop. */
  method CancelTwice(host: Host, options: Options) returns (first: CancelReply, second: CancelReply, signals: seq<string>)
    requires !ThrowsBeforeSpawn(options)
    ensures first == CancelReply(true, None)
    ensures second == CancelReply(false, Some(NoProcessRunning))
    ensures signals == ["SIGTERM"]
  {
    var o := new Orchestrator();
    var job := o.GenerateSlideshow(host, options);
    first := o.Cancel();
    second := o.Cancel();
    signals := job.signals;
  }

  /**
   * A second launch overwrites the slot, and the first job's close then
   * clears it: the second job keeps running but can no longer be cancelled.
   */
  method StaleCloseOrphansNewerJob(host: Host, first: Options, second: Options, code: Option<int>)
    returns (reply: CancelReply, secondSignals: seq<string>, secondSettled: bool)
    requires !ThrowsBeforeSpawn(first) && !ThrowsBeforeSpawn(second)
    ensures reply == CancelReply(false, Some(NoProcessRunning))
    ensures secondSignals == [] && !secondSettled
  {
    var o := new Orchestrator();
    var a := o.GenerateSlideshow(host, first);
    var b := o.GenerateSlideshow(host, second);
    o.OnClose(a, code);
    reply := o.Cancel();
    secondSignals := b.signals;
    secondSettled := b.settlement.Some?;
  }

  /**
   * Cancelling does not settle the job: the process later closes with a null
   * code (it died of the signal), and with nothing on standard error the job
   * rejects with the generic message.
   */
  method CancelThenClose(host: Host, options: Options) returns (s: Option<Settlement>)
    requires !ThrowsBeforeSpawn(options)
    ensures s == Some(Failed(GenericFailure, None))
  {
    var o := new Orchestrator();
    var job := o.GenerateSlideshow(host, options);
    var reply := o.Cancel();
    assert job.settlement == None;
    o.OnClose(job, None);
    s := job.settlement;
  }

  /**
   * A launch whose process writes its standard output and standard error in
   * chunks, cut anywhere, and then closes: the renderer receives the events
   * of every chunk in order, and the promise settles on the whole text of
   * each stream, however it was cut.
   */
  method StreamThenClose(host: Host, options: Options, outChunks: seq<string>, errChunks: seq<string>,
                         code: Option<int>)
    returns (sent: seq<Event>, s: Option<Settlement>)
    requires !ThrowsBeforeSpawn(options)
    ensures sent == StreamEvents(outChunks)
    ensures s == Some(CloseResult(code, Concat(outChunks), Concat(errChunks),
                                  DefaultVideoPath(host.platform, host.appRoot)))
  {
    var o := new Orchestrator();
    var job := o.GenerateSlideshow(host, options);
    var i := 0;
    while i < |outChunks|
      invariant 0 <= i <= |outChunks|
      invariant job.outputData == Concat(outChunks[..i]) && job.sent == StreamEvents(outChunks[..i])
      invariant job.errorData == "" && job.settlement == None
      invariant job.defaultVideoPath == DefaultVideoPath(host.platform, host.appRoot)
    {
      StreamStep(outChunks, i);
      job.OnStdout(outChunks[i]);
      i := i + 1;
    }
    var k := 0;
    while k < |errChunks|
      invariant 0 <= k <= |errChunks|
      invariant job.errorData == Concat(errChunks[..k])
      invariant job.outputData == Concat(outChunks[..i]) && job.sent == StreamEvents(outChunks[..i])
      invariant job.settlement == None
      invariant job.defaultVideoPath == DefaultVideoPath(host.platform, host.appRoot)
    {
      StreamStep(errChunks, k);
      job.OnStderr(errChunks[k]);
      k := k + 1;
    }
    assert outChunks[..i] == outChunks && errChunks[..k] == errChunks;
    sent := job.sent;
    o.OnClose(job, code);
    s := job.settlement;
  }
}
