/**
 * The R interpreter wrapper of the backend: one long-running `Rscript` process fed through its
 * standard input, whose standard output and standard error are collected line by line into two
 * FIFO queues by reader threads.  A cell is written to a temporary file wrapped so that it always
 * ends by printing an end marker; the wrapper then reads output lines until a line holding the
 * marker, and restarts the process when the wait expires.
 *
 * Threads, pipes and the clock are abstracted: what reaches the queues while the wrapper waits is
 * an input (`Deliver`), and an expired wait is an explicit `Expired` event in the stdout queue.
 */
module RProcess {
  import opened Common

  /** `_END_MESSAGE`: the text that marks the end of a cell's output. */
  const EndMessage := "__ INTERPRETER END OF EXECUTION __"

  /** The R command `_wait_till_started` sends to a fresh process: print the end marker. */
  const ProbeCommand := "cat(\"" + EndMessage + "\\n\")\n"

  /** The R command `_run_script` sends for a script file (the non-Windows path). */
  function SourceCommand(path: string): string {
    "source(\"" + path + "\")\n"
  }

  /** What one `get` on the stdout queue yields: a line, or an expired wait. */
  datatype StdoutEvent = Line(text: string) | Expired

  /** What `run_cell` produces: its text, `None` on a timeout, or the exception it raises. */
  datatype CellOutcome = Output(text: string) | TimedOut | Raised(message: string)

  /** Everything around one `run_cell` that the wrapper does not control. */
  datatype CellEnv = CellEnv(
    createError: Option<string>,    // creating the temporary script file raises with this message
    writeError: Option<string>,     // writing to the process's stdin raises with this message
    reply: seq<StdoutEvent>,        // what reaches the stdout queue while the wrapper waits
    replyErr: seq<string>,          // what reaches the stderr queue meanwhile
    restartBoot: seq<StdoutEvent>,  // the stdout of the replacement process, if one is started
    fetchError: Option<string>,     // starting the replacement process raises with this message
    unlinkFails: bool)              // deleting the temporary script raises

  // ---------------------------------------------------------------------------------------------
  // Specification of `_read_stdout`

  /** An event that ends `_read_stdout`: an expired wait, or a line holding the end marker. */
  predicate Stops(e: StdoutEvent) {
    e.Expired? || Contains(e.text, EndMessage)
  }

  /** The index of the first event that ends the read (|q| when none does). */
  function FirstStop(q: seq<StdoutEvent>): (k: nat)
    ensures k <= |q|
    ensures forall i :: 0 <= i < k ==> !Stops(q[i])
    ensures k < |q| ==> Stops(q[k])
  {
    if q == [] then 0 else if Stops(q[0]) then 0 else 1 + FirstStop(q[1..])
  }

  function TextOf(e: StdoutEvent): string {
    if e.Line? then e.text else ""
  }

  /** The texts of the events, in queue order. */
  function Texts(q: seq<StdoutEvent>): (r: seq<string>)
    ensures |r| == |q|
  {
    seq(|q|, i requires 0 <= i < |q| => TextOf(q[i]))
  }

  /** What `_read_stdout` returns when its queue holds `q`. */
  function Capture(q: seq<StdoutEvent>): Option<string> {
    var k := FirstStop(q);
    if k < |q| && q[k].Line? then Some(Concat(Texts(q[..k]))) else None
  }

  /** How many events `_read_stdout` takes from a queue holding `q`. */
  function Consumed(q: seq<StdoutEvent>): (n: nat)
    ensures n <= |q|
  {
    var k := FirstStop(q);
    if k < |q| then k + 1 else k
  }

  /** The result `_fetch_result` reports for the queue contents `q` and stderr lines `errs`. */
  function CellResult(q: seq<StdoutEvent>, errs: seq<string>): CellOutcome {
    match Capture(q)
    case None => TimedOut
    case Some(out) => Output(out + Concat(errs))
  }

  /** The end-marker line is at index `k` and every earlier event is an ordinary output line. */
  predicate MarkerAt(q: seq<StdoutEvent>, k: nat) {
    && k < |q|
    && q[k].Line? && Contains(q[k].text, EndMessage)
    && forall i :: 0 <= i < k ==> q[i].Line? && !Contains(q[i].text, EndMessage)
  }

  /**
   * `_read_stdout` returns text exactly when the end-marker line arrives before any expiry, and
   * the text is then the FIFO concatenation of the lines before it; the marker line itself, with
   * whatever precedes the marker on it, is left out.
   */
  lemma CaptureIsTextBeforeMarker(q: seq<StdoutEvent>, s: string)
    ensures Capture(q) == Some(s) <==> exists k: nat :: MarkerAt(q, k) && s == Concat(Texts(q[..k]))
  {
    var f := FirstStop(q);
    if Capture(q) == Some(s) {
      assert MarkerAt(q, f);
    }
    if exists k: nat :: MarkerAt(q, k) && s == Concat(Texts(q[..k])) {
      var k: nat :| MarkerAt(q, k) && s == Concat(Texts(q[..k]));
      assert k == f;
    }
  }

  /** `_read_stdout` returns `None`, never partial output, when a wait expires first. */
  lemma CaptureNoneIffExpiresFirst(q: seq<StdoutEvent>)
    ensures Capture(q).None? <==> forall k: nat :: !MarkerAt(q, k)
  {
    var f := FirstStop(q);
    if Capture(q).Some? {
      assert MarkerAt(q, f);
    }
    if exists k: nat :: MarkerAt(q, k) {
      var k: nat :| MarkerAt(q, k);
      assert k == f;
    }
  }

  /** Lines arriving after the marker line do not change the read, and stay queued for the next. */
  lemma {:induction false} CaptureIgnoresLaterLines(q: seq<StdoutEvent>, later: seq<StdoutEvent>)
    requires FirstStop(q) < |q|
    ensures FirstStop(q + later) == FirstStop(q)
    ensures Capture(q + later) == Capture(q)
    ensures Consumed(q + later) == Consumed(q)
    ensures (q + later)[Consumed(q)..] == q[Consumed(q)..] + later
  {
    var k := FirstStop(q);
    if !Stops(q[0]) {
      assert (q + later)[1..] == q[1..] + later;
      CaptureIgnoresLaterLines(q[1..], later);
    }
    assert (q + later)[..k] == q[..k];
  }

  /** The stdout events for ordinary output lines. */
  function Lines(ls: seq<string>): (q: seq<StdoutEvent>)
    ensures |q| == |ls|
    ensures forall i :: 0 <= i < |ls| ==> q[i] == Line(ls[i])
  {
    seq(|ls|, i requires 0 <= i < |ls| => Line(ls[i]))
  }

  /** The line R prints for `cat("<end marker>\\n")` holds the end marker. */
  lemma MarkerLineHoldsMarker()
    ensures Contains(EndMessage + "\n", EndMessage)
  {
    assert OccursAt(EndMessage + "\n", EndMessage, 0);
  }

  lemma ConsumedThroughStop(q: seq<StdoutEvent>)
    requires FirstStop(q) < |q|
    ensures Consumed(q) == FirstStop(q) + 1
  {
  }

  /** The first event that ends the read of a cell's output is its end-marker line. */
  lemma CellOutputStopsAtMarker(ls: seq<string>, rest: seq<StdoutEvent>)
    requires forall i :: 0 <= i < |ls| ==> !Contains(ls[i], EndMessage)
    ensures FirstStop(Lines(ls) + [Line(EndMessage + "\n")] + rest) == |ls|
  {
    var q := Lines(ls) + [Line(EndMessage + "\n")] + rest;
    assert forall i :: 0 <= i < |ls| ==> q[i] == Line(ls[i]);
    assert forall i :: 0 <= i < |ls| ==> !Stops(q[i]);
    assert q[|ls|] == Line(EndMessage + "\n");
    MarkerLineHoldsMarker();
    assert Stops(q[|ls|]);
  }

  /**
   * The protocol: when the process prints lines free of the marker and then the marker line (as
   * the wrapped script's last command does), the read returns exactly those lines, in order, and
   * takes nothing after the marker line.
   */
  lemma CaptureOfCellOutput(ls: seq<string>, rest: seq<StdoutEvent>)
    requires forall i :: 0 <= i < |ls| ==> !Contains(ls[i], EndMessage)
    ensures Capture(Lines(ls) + [Line(EndMessage + "\n")] + rest) == Some(Concat(ls))
    ensures Consumed(Lines(ls) + [Line(EndMessage + "\n")] + rest) == |ls| + 1
  {
    var q := Lines(ls) + [Line(EndMessage + "\n")] + rest;
    CellOutputStopsAtMarker(ls, rest);
    ConsumedThroughStop(q);
    TextsBeforeMarker(ls, rest);
  }

  lemma TextsBeforeMarker(ls: seq<string>, rest: seq<StdoutEvent>)
    ensures Texts((Lines(ls) + [Line(EndMessage + "\n")] + rest)[..|ls|]) == ls
  {
    var q := Lines(ls) + [Line(EndMessage + "\n")] + rest;
    assert q[..|ls|] == Lines(ls);
    assert Texts(Lines(ls)) == ls;
  }

  // ---------------------------------------------------------------------------------------------
  // `_wrap_script`

  /** The text `_wrap_script` puts before the cell. */
  const WrapHead := "\n        # Suppress file connection warnings\n        options(warn = -1)\n        .Last.value <- tryCatch({\n            "

  /** The opening of the `tryCatch` error branch. */
  const HandlerOpen := "\n        }, error = function(e) {\n            "

  /** What the error branch prints: `Error: ` and the condition's message. */
  const ErrorPrint := "cat(\"Error: \", e$message, \"\\n\", sep=\"\")"

  /** The error branch of the `tryCatch`, which yields `NULL` after printing. */
  const ErrorHandler := HandlerOpen + ErrorPrint + "\n            NULL\n        })\n"

  /** Print the value when there is one, then print the end marker. */
  const WrapTail := ErrorHandler + "        if (!is.null(.Last.value)) {\n            print(.Last.value)\n        }\n        " + ProbeCommand + "        "

  /** `_wrap_script`: the cell inside a `tryCatch`, followed by the end-marker command. */
  function WrapScript(script: string): (r: string)
    ensures StartsWith(r, WrapHead)
    ensures EndsWith(r, ProbeCommand + "        ")
    ensures |r| == |WrapHead| + |script| + |WrapTail|
  {
    WrapHead + script + WrapTail
  }

  /** Recovers the cell from a wrapped script. */
  function UnwrapScript(wrapped: string): Option<string> {
    if |WrapHead| + |WrapTail| <= |wrapped| && StartsWith(wrapped, WrapHead)
      && EndsWith(wrapped, WrapTail)
    then Some(wrapped[|WrapHead|..|wrapped| - |WrapTail|])
    else None
  }

  /**
   * Wrapping keeps the cell verbatim between the head and the error handler, and whatever the
   * cell is, the last command of the file prints the end marker.
   */
  lemma WrapScriptRoundTrip(script: string)
    ensures UnwrapScript(WrapScript(script)) == Some(script)
    ensures WrapScript(script)[|WrapHead| + |script|..] == WrapTail
    ensures OccursAt(WrapScript(script), ErrorPrint, |WrapHead| + |script| + |HandlerOpen|)
    ensures StartsWith(ErrorPrint, "cat(\"Error: \"")
    ensures Contains(ProbeCommand, EndMessage)
  {
    var w := WrapScript(script);
    assert w[..|WrapHead|] == WrapHead;
    assert w[|w| - |WrapTail|..] == WrapTail;
    assert w[|WrapHead|..|w| - |WrapTail|] == script;
    var at := |WrapHead| + |script| + |HandlerOpen|;
    assert w[at..at + |ErrorPrint|] == ErrorPrint;
    assert OccursAt(ProbeCommand, EndMessage, 5);
  }

  // ---------------------------------------------------------------------------------------------
  // The interpreter object

  class RInterpreter {
    /** `_running`. */
    var running: bool
    /** `_stop_threads`: tells the reader threads to finish. */
    var stopThreads: bool
    /** Whether the current `_process` has not been killed. */
    var processAlive: bool
    /** How many R processes this interpreter has started (`_process` is the latest). */
    var process: nat
    /** What has been written to the current process's standard input. */
    var stdinLog: seq<string>
    /** `_q_stdout`. */
    var stdoutQueue: seq<StdoutEvent>
    /** `_q_stderr`. */
    var stderrQueue: seq<string>
    /** The temporary script files this interpreter has on disk, by path. */
    var files: map<string, string>

    /** `__init__`: start the process; `boot` is what the fresh process prints to stdout. */
    constructor (boot: seq<StdoutEvent>)
      ensures running && !stopThreads && processAlive && process == 1
      ensures stdinLog == [ProbeCommand]
      ensures stdoutQueue == boot[Consumed(boot)..] && stderrQueue == []
      ensures files == map[]
    {
      running, stopThreads, processAlive, process := false, false, false, 0;
      stdinLog, stdoutQueue, stderrQueue, files := [], [], [], map[];
      new;
      Start(boot);
    }

    /**
     * `_start`: a new process with fresh queues, probed until it prints the end marker; the
     * interpreter counts as running afterwards whether or not the probe was answered in time.
     */
    method Start(boot: seq<StdoutEvent>)
      modifies this`running, this`stopThreads, this`processAlive, this`process
      modifies this`stdinLog, this`stdoutQueue, this`stderrQueue
      ensures running && !stopThreads && processAlive && process == old(process) + 1
      ensures stdinLog == [ProbeCommand]
      ensures stdoutQueue == boot[Consumed(boot)..] && stderrQueue == []
    {
      process := process + 1;
      processAlive := true;
      stdinLog := [];
      stopThreads := false;
      stdoutQueue, stderrQueue := [], [];
      WriteStdin(ProbeCommand);
      Deliver(boot, []);
      assert stdoutQueue == boot;
      var _ := ReadStdout();
      running := true;
    }

    /** `stop`: kill the process and end the reader threads, only when running. */
    method Stop()
      modifies this`running, this`stopThreads, this`processAlive
      ensures !running
      ensures processAlive == (old(processAlive) && !old(running))
      ensures stopThreads == (old(stopThreads) || old(running))
    {
      if running {
        processAlive := false;
        stopThreads := true;
        running := false;
      }
    }

    /** The reader threads and the clock: events reach the two queues in arrival order. */
    method Deliver(out: seq<StdoutEvent>, err: seq<string>)
      modifies this`stdoutQueue, this`stderrQueue
      ensures stdoutQueue == old(stdoutQueue) + out
      ensures stderrQueue == old(stderrQueue) + err
    {
      stdoutQueue := stdoutQueue + out;
      stderrQueue := stderrQueue + err;
    }

    /** `_write_stdin`. */
    method WriteStdin(text: string)
      modifies this`stdinLog
      ensures stdinLog == old(stdinLog) + [text]
    {
      stdinLog := stdinLog + [text];
    }

    /**
     * `_read_stdout`: take lines from the stdout queue, accumulating them, until one holds the
     * end marker; an expired wait (or a queue that stays empty) gives `None`.
     */
    method ReadStdout() returns (r: Option<string>)
      modifies this`stdoutQueue
      ensures r == Capture(old(stdoutQueue))
      ensures stdoutQueue == old(stdoutQueue)[Consumed(old(stdoutQueue))..]
    {
      ghost var q := stdoutQueue;
      ghost var i: nat := 0;
      var stdout := "";
      while true
        invariant i <= FirstStop(q)
        invariant stdoutQueue == q[i..]
        invariant stdout == Concat(Texts(q[..i]))
        decreases |stdoutQueue|
      {
        if stdoutQueue == [] {
          return None;
        }
        var event := stdoutQueue[0];
        stdoutQueue := stdoutQueue[1..];
        if event.Expired? {
          return None;
        }
        if Contains(event.text, EndMessage) {
          break;
        }
        assert Texts(q[..i + 1]) == Texts(q[..i]) + [event.text];
        ConcatAppend(Texts(q[..i]), [event.text]);
        stdout := stdout + event.text;
        i := i + 1;
      }
      return Some(stdout);
    }

    /** `_read_stderr`: drain the stderr queue, concatenating its lines in FIFO order. */
    method ReadStderr() returns (r: string)
      modifies this`stderrQueue
      ensures r == Concat(old(stderrQueue))
      ensures stderrQueue == []
    {
      ghost var q := stderrQueue;
      ghost var i: nat := 0;
      r := "";
      while stderrQueue != []
        invariant i <= |q|
        invariant stderrQueue == q[i..]
        invariant r == Concat(q[..i])
        decreases |stderrQueue|
      {
        assert q[..i + 1][..i] == q[..i];
        r := r + stderrQueue[0];
        stderrQueue := stderrQueue[1..];
        i := i + 1;
      }
      assert q[..i] == q;
    }

    /**
     * `_fetch_result`: the stdout text followed by the drained stderr text; on an expired wait,
     * stop and restart the process (`boot` is what the new one prints) and report `None`. When
     * starting the new process raises (`spawnError`), `raised` is that exception and the old
     * process stays stopped.
     */
    method FetchResult(boot: seq<StdoutEvent>, spawnError: Option<string>)
      returns (r: Option<string>, raised: Option<string>)
      modifies this`running, this`stopThreads, this`processAlive, this`process
      modifies this`stdinLog, this`stdoutQueue, this`stderrQueue
      ensures Capture(old(stdoutQueue)).None? && spawnError.Some? ==>
        && r.None? && raised == spawnError
        && !running && processAlive == (old(processAlive) && !old(running))
        && stopThreads == (old(stopThreads) || old(running)) && process == old(process)
        && stdinLog == old(stdinLog)
        && stdoutQueue == old(stdoutQueue)[Consumed(old(stdoutQueue))..] && stderrQueue == old(stderrQueue)
      ensures Capture(old(stdoutQueue)).None? && spawnError.None? ==>
        && r.None? && raised.None?
        && running && !stopThreads && processAlive && process == old(process) + 1
        && stdinLog == [ProbeCommand]
        && stdoutQueue == boot[Consumed(boot)..] && stderrQueue == []
      ensures Capture(old(stdoutQueue)).Some? ==>
        && r == Some(Capture(old(stdoutQueue)).value + Concat(old(stderrQueue))) && raised.None?
        && running == old(running) && stopThreads == old(stopThreads)
        && processAlive == old(processAlive) && process == old(process)
        && stdinLog == old(stdinLog)
        && stdoutQueue == old(stdoutQueue)[Consumed(old(stdoutQueue))..] && stderrQueue == []
    {
      var stdout := ReadStdout();
      if stdout.None? {
        Stop();
        if spawnError.Some? {
          return None, spawnError;
        }
        Start(boot);
        return None, None;
      }
      var stderr := ReadStderr();
      return Some(stdout.value + stderr), None;
    }

    /**
     * `run_cell`: write the wrapped cell to a temporary file, have R source it, fetch the
     * result, and delete the file on every path, including when fetching raises (a failing delete
     * is ignored). A failure creating
     * the file is raised before the `try`, so nothing is written, sent or deleted.
     */
    method RunCell(script: string, path: string, env: CellEnv) returns (r: CellOutcome)
      modifies this
      ensures env.createError.Some? ==>
        && r == Raised(env.createError.value) && files == old(files)
        && running == old(running) && processAlive == old(processAlive)
        && stopThreads == old(stopThreads) && process == old(process) && stdinLog == old(stdinLog)
        && stdoutQueue == old(stdoutQueue) && stderrQueue == old(stderrQueue)
      ensures env.createError.None? ==>
        files == if env.unlinkFails then old(files)[path := WrapScript(script)]
                 else old(files) - {path}
      ensures env.createError.None? && env.writeError.Some? ==>
        && r == Raised(env.writeError.value)
        && running == old(running) && processAlive == old(processAlive)
        && stopThreads == old(stopThreads) && process == old(process) && stdinLog == old(stdinLog)
        && stdoutQueue == old(stdoutQueue) && stderrQueue == old(stderrQueue)
      ensures env.createError.None? && env.writeError.None?
              && (Capture(old(stdoutQueue) + env.reply).Some? || env.fetchError.None?) ==>
        r == CellResult(old(stdoutQueue) + env.reply, old(stderrQueue) + env.replyErr)
      ensures env.createError.None? && env.writeError.None?
              && Capture(old(stdoutQueue) + env.reply).None? && env.fetchError.Some? ==>
        && r == Raised(env.fetchError.value)
        && !running && processAlive == (old(processAlive) && !old(running))
        && stopThreads == (old(stopThreads) || old(running)) && process == old(process)
        && stdinLog == old(stdinLog) + [SourceCommand(path)]
        && stdoutQueue == (old(stdoutQueue) + env.reply)[Consumed(old(stdoutQueue) + env.reply)..]
        && stderrQueue == old(stderrQueue) + env.replyErr
      ensures env.createError.None? && env.writeError.None? && r.TimedOut? ==>
        && running && processAlive && !stopThreads && process == old(process) + 1
        && stdinLog == [ProbeCommand]
        && stdoutQueue == env.restartBoot[Consumed(env.restartBoot)..] && stderrQueue == []
      ensures env.createError.None? && env.writeError.None? && r.Output? ==>
        && running == old(running) && processAlive == old(processAlive)
        && stopThreads == old(stopThreads) && process == old(process)
        && stdinLog == old(stdinLog) + [SourceCommand(path)]
        && stdoutQueue == (old(stdoutQueue) + env.reply)[Consumed(old(stdoutQueue) + env.reply)..]
        && stderrQueue == []
    {
      if env.createError.Some? {
        return Raised(env.createError.value);
      }
      files := files[path := WrapScript(script)];
      if env.writeError.Some? {
        r := Raised(env.writeError.value);
      } else {
        WriteStdin(SourceCommand(path));
        Deliver(env.reply, env.replyErr);
        var fetched, raised := FetchResult(env.restartBoot, env.fetchError);
        r := if raised.Some? then Raised(raised.value)
             else if fetched.Some? then Output(fetched.value) else TimedOut;
      }
      if path in files && !env.unlinkFails {
        files := files - {path};
      }
    }
  }
}
