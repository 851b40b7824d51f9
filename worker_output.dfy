/**
 * What the Python workers write to standard output, line by line
 * (`print_progress`, `print_status` and the plain `print` calls of
 * backend/slideshow.py and backend/local_slideshow.py), and how the
 * Electron side reads each kind of line back.
 */
module WorkerOutput {
  import opened Wrappers
  import opened Strings
  import opened JsBuiltins
  import opened Protocol

  /** `print(text)` to a stream holding `out`: the text and a line break are appended. */
  function Println(out: string, text: string): string {
    out + text + "\n"
  }

  /** `print_progress(n)`: `f"PROGRESS:{n}"`. */
  function ProgressLine(n: int): string {
    "PROGRESS:" + IntToDecimal(n)
  }

  /** `print_status(s)`: `f"STATUS:{s}"`. */
  function StatusLine(s: string): string {
    "STATUS:" + s
  }

  /** The final line naming the video: `f"OUTPUT:{path}"`. */
  function OutputLine(path: string): string {
    "OUTPUT:" + path
  }

  /** The line written to standard error on failure: `f"ERROR:{msg}"`. */
  function ErrorLine(message: string): string {
    "ERROR:" + message
  }

  predicate SingleLine(s: string) {
    '\n' !in s
  }

  /** Text that `print` writes as one line. */
  type Line = s: string | SingleLine(s) witness ""

  // Status messages both workers print.
  const Creating: Line := "Creating slideshow video..."
  const Complete: Line := "Slideshow complete!"
  const ErrorPrefix: Line := "Error: "

  lemma {:induction false} SingleLineConcat(a: string, b: string)
    requires SingleLine(a) && SingleLine(b)
    ensures SingleLine(a + b)
  {
    assert forall i :: 0 <= i < |a + b| ==> (a + b)[i] == if i < |a| then a[i] else b[i - |a|];
  }

  /** The progress values among the events, in order. */
  function Percentages(events: seq<Event>): (ps: seq<JsNumber>)
    ensures |ps| <= |events|
  {
    if events == [] then []
    else (if events[0].Progress? then [events[0].percent] else []) + Percentages(events[1..])
  }

  lemma {:induction false} PercentagesAppend(a: seq<Event>, b: seq<Event>)
    ensures Percentages(a + b) == Percentages(a) + Percentages(b)
  {
    if a != [] {
      assert (a + b)[0] == a[0];
      assert (a + b)[1..] == a[1..] + b;
      PercentagesAppend(a[1..], b);
    } else {
      assert a + b == b;
    }
  }

  /**
   * A printed line, after text that ends at a line break, adds exactly that
   * line's events, and names a video only if nothing before it did.
   */
  lemma {:induction false} PrintlnAppends(out: string, line: string)
    requires EndsAtLineBreak(out) && SingleLine(line)
    ensures EndsAtLineBreak(Println(out, line))
    ensures ChunkEvents(Println(out, line)) == ChunkEvents(out) + ClassifyLine(line)
    ensures OutputPath(Println(out, line)) ==
      if OutputPath(out).Some? then OutputPath(out) else LineOutputPath(line)
  {
    assert Println(out, line) == out + (line + "\n");
    ChunkEventsAppend(out, line + "\n");
    OneLineChunk(line);
    OutputPathAppend(out, line + "\n");
    OneLineOutputPath(line);
  }

  /** A progress line names no video. */
  lemma {:induction false} ProgressLineNamesNoVideo(n: int)
    ensures LineOutputPath(ProgressLine(n)).None?
  {
    var line := ProgressLine(n);
    assert line[..7][0] == 'P';
  }

  /** A status line reads back as its text, trimmed. */
  lemma {:induction false} StatusLineEvents(s: string)
    ensures ClassifyLine(StatusLine(s)) == [Status(Trim(s))]
  {
    var line := StatusLine(s);
    assert !StartsWith(line, "PROGRESS:") by {
      assert line[0] == 'S';
    }
    assert StartsWith(line, "STATUS:") && line[7..] == s;
  }

  /** A status line names no video. */
  lemma {:induction false} StatusLineNamesNoVideo(s: string)
    ensures LineOutputPath(StatusLine(s)).None?
  {
    assert StatusLine(s)[0] == 'S';
  }

  /** A status text without surrounding whitespace reads back exactly. */
  lemma {:induction false} TrimmedStatusRoundTrip(s: string)
    requires s == [] || (!IsWhiteSpace(s[0]) && !IsWhiteSpace(s[|s| - 1]))
    ensures ClassifyLine(StatusLine(s)) == [Status(s)]
  {
    StatusLineEvents(s);
    TrimUnchanged(s);
  }

  /** The output line sends nothing. */
  lemma {:induction false} OutputLineEvents(path: string)
    ensures ClassifyLine(OutputLine(path)) == []
  {
    var line := OutputLine(path);
    assert !StartsWith(line, "PROGRESS:") && !StartsWith(line, "STATUS:") by {
      assert line[0] == 'O';
    }
  }

  /** The output line names its path, trimmed. */
  lemma {:induction false} OutputLineNamesPath(path: string)
    ensures LineOutputPath(OutputLine(path)) == Some(Trim(path))
  {
    assert OutputLine(path)[7..] == path;
  }

  /** Printing a one-line status adds no progress value and names no video. */
  lemma {:induction false} EmitStatus(out: string, status: string)
    requires EndsAtLineBreak(out) && SingleLine(status)
    ensures EndsAtLineBreak(Println(out, StatusLine(status)))
    ensures Percentages(ChunkEvents(Println(out, StatusLine(status)))) == Percentages(ChunkEvents(out))
    ensures OutputPath(Println(out, StatusLine(status))) == OutputPath(out)
  {
    SingleLineConcat("STATUS:", status);
    PrintlnAppends(out, StatusLine(status));
    StatusLineEvents(status);
    StatusLineNamesNoVideo(status);
    PercentagesAppend(ChunkEvents(out), [Status(Trim(status))]);
  }

  /** Printing a progress line adds its number to the progress values. */
  lemma {:induction false} EmitProgress(out: string, n: int)
    requires EndsAtLineBreak(out)
    ensures EndsAtLineBreak(Println(out, ProgressLine(n)))
    ensures Percentages(ChunkEvents(Println(out, ProgressLine(n)))) ==
      Percentages(ChunkEvents(out)) + [Finite(n)]
    ensures OutputPath(Println(out, ProgressLine(n))) == OutputPath(out)
  {
    var line := ProgressLine(n);
    var events := [Progress(Finite(n))];
    assert SingleLine(line) by {
      ProgressTextSingleLine(n);
    }
    assert ClassifyLine(line) == events by {
      ProgressLineValue(n);
    }
    ProgressLineNamesNoVideo(n);
    PrintlnAppends(out, line);
    assert Percentages(events) == [Finite(n)] by {
      assert events[1..] == [];
    }
    PercentagesAppend(ChunkEvents(out), events);
  }

  /** Printing the output line names its path, unless an earlier line already named one. */
  lemma {:induction false} EmitOutput(out: string, path: string)
    requires EndsAtLineBreak(out) && SingleLine(path)
    ensures EndsAtLineBreak(Println(out, OutputLine(path)))
    ensures Percentages(ChunkEvents(Println(out, OutputLine(path)))) == Percentages(ChunkEvents(out))
    ensures OutputPath(Println(out, OutputLine(path))) ==
      if OutputPath(out).Some? then OutputPath(out) else Some(Trim(path))
  {
    SingleLineConcat("OUTPUT:", path);
    PrintlnAppends(out, OutputLine(path));
    OutputLineEvents(path);
    OutputLineNamesPath(path);
    assert ChunkEvents(out) + [] == ChunkEvents(out);
  }

  /** One `print` call of a worker, by the helper that makes it. */
  datatype Printed =
    | ProgressOut(percent: int)   // print_progress
    | StatusOut(status: string)   // print_status
    | OutputOut(path: string)     // the final `OUTPUT:` print
    | Plain(text: string)         // any other print, the video generator's among them

  /** The line a print call writes. */
  function Text(p: Printed): string {
    match p
    case ProgressOut(n) => ProgressLine(n)
    case StatusOut(s) => StatusLine(s)
    case OutputOut(path) => OutputLine(path)
    case Plain(t) => t
  }

  /** Everything a sequence of print calls writes to standard output. */
  function Transcript(ps: seq<Printed>): string {
    if ps == [] then "" else Println(Transcript(ps[..|ps| - 1]), Text(ps[|ps| - 1]))
  }

  /**
   * A print call the Electron side reads as intended: its text is one line,
   * and a plain print is neither a progress line nor an output line.
   */
  predicate Printable(p: Printed) {
    match p
    case ProgressOut(_) => true
    case StatusOut(s) => SingleLine(s)
    case OutputOut(path) => SingleLine(path)
    case Plain(t) => SingleLine(t) && !StartsWith(t, "PROGRESS:") && !StartsWith(t, "OUTPUT:")
  }

  predicate AllPrintable(ps: seq<Printed>) {
    ps == [] || (AllPrintable(ps[..|ps| - 1]) && Printable(ps[|ps| - 1]))
  }

  /** Every print of a run is printable exactly when every print of each part is. */
  lemma {:induction false} AllPrintableAppend(a: seq<Printed>, b: seq<Printed>)
    ensures AllPrintable(a + b) <==> AllPrintable(a) && AllPrintable(b)
    decreases |b|
  {
    if b == [] {
      assert a + b == a;
    } else {
      var init := b[..|b| - 1];
      AllPrintableAppend(a, init);
      assert (a + b)[..|a + b| - 1] == a + init;
    }
  }

  /** The percentages of the progress prints, in order. */
  function Progresses(ps: seq<Printed>): (r: seq<JsNumber>)
    ensures |r| <= |ps|
  {
    if ps == [] then []
    else
      var last := ps[|ps| - 1];
      Progresses(ps[..|ps| - 1]) + if last.ProgressOut? then [Finite(last.percent)] else []
  }

  /** The path of the first output print, trimmed as the reader trims it. */
  function FirstOutput(ps: seq<Printed>): Option<string> {
    if ps == [] then None
    else
      var before := FirstOutput(ps[..|ps| - 1]);
      var last := ps[|ps| - 1];
      if before.Some? then before else if last.OutputOut? then Some(Trim(last.path)) else None
  }

  /** One more print call: its progress value, if any, comes last, and it names a video only if nothing before did. */
  lemma {:induction false} PrintStep(ps: seq<Printed>, p: Printed)
    ensures Progresses(ps + [p]) == Progresses(ps) + if p.ProgressOut? then [Finite(p.percent)] else []
    ensures FirstOutput(ps + [p]) ==
      if FirstOutput(ps).Some? then FirstOutput(ps) else if p.OutputOut? then Some(Trim(p.path)) else None
    ensures AllPrintable(ps + [p]) <==> AllPrintable(ps) && Printable(p)
  {
    assert (ps + [p])[..|ps|] == ps;
  }

  /** A status print followed by a progress print, the workers' usual announcement of a step. */
  lemma {:induction false} Announce(ps: seq<Printed>, status: string, n: int)
    ensures Progresses(ps + [StatusOut(status), ProgressOut(n)]) == Progresses(ps) + [Finite(n)]
    ensures FirstOutput(ps + [StatusOut(status), ProgressOut(n)]) == FirstOutput(ps)
    ensures AllPrintable(ps + [StatusOut(status), ProgressOut(n)]) <==> AllPrintable(ps) && SingleLine(status)
  {
    PrintStep(ps, StatusOut(status));
    PrintStep(ps + [StatusOut(status)], ProgressOut(n));
    assert ps + [StatusOut(status)] + [ProgressOut(n)] == ps + [StatusOut(status), ProgressOut(n)];
  }

  /**
   * The close of a successful run: 90, the completion status, 100 and the
   * output line, which names the video unless an earlier print already did.
   */
  lemma {:induction false} Conclude(ps: seq<Printed>, status: string, video: string)
    ensures var done := ps + [ProgressOut(90), StatusOut(status), ProgressOut(100), OutputOut(video)];
      && Progresses(done) == Progresses(ps) + [Finite(90), Finite(100)]
      && FirstOutput(done) == (if FirstOutput(ps).Some? then FirstOutput(ps) else Some(Trim(video)))
      && (AllPrintable(done) <==> AllPrintable(ps) && SingleLine(status) && SingleLine(video))
  {
    var mid := ps + [ProgressOut(90)];
    var almost := mid + [StatusOut(status), ProgressOut(100)];
    assert almost + [OutputOut(video)] == ps + [ProgressOut(90), StatusOut(status), ProgressOut(100), OutputOut(video)];
    assert Progresses(almost + [OutputOut(video)]) == Progresses(ps) + [Finite(90), Finite(100)] by {
      PrintStep(ps, ProgressOut(90));
      Announce(mid, status, 100);
      PrintStep(almost, OutputOut(video));
    }
    assert FirstOutput(almost + [OutputOut(video)]) ==
      if FirstOutput(ps).Some? then FirstOutput(ps) else Some(Trim(video)) by {
      PrintStep(ps, ProgressOut(90));
      Announce(mid, status, 100);
      PrintStep(almost, OutputOut(video));
    }
    assert AllPrintable(almost + [OutputOut(video)]) <==>
      AllPrintable(ps) && SingleLine(status) && SingleLine(video) by {
      PrintStep(ps, ProgressOut(90));
      Announce(mid, status, 100);
      PrintStep(almost, OutputOut(video));
    }
  }

  /** Print calls that are all plain add no progress value and name no video. */
  lemma {:induction false} PlainsAddNothing(ps: seq<Printed>, plains: seq<Printed>)
    requires forall i :: 0 <= i < |plains| ==> plains[i].Plain?
    ensures Progresses(ps + plains) == Progresses(ps)
    ensures FirstOutput(ps + plains) == FirstOutput(ps)
    decreases |plains|
  {
    if plains != [] {
      var init := plains[..|plains| - 1];
      PlainsAddNothing(ps, init);
      assert ps + plains == (ps + init) + [plains[|plains| - 1]];
      PrintStep(ps + init, plains[|plains| - 1]);
    } else {
      assert ps + plains == ps;
    }
  }

  /** A plain print adds no progress value and names no video. */
  lemma {:induction false} EmitPlain(out: string, text: string)
    requires EndsAtLineBreak(out) && Printable(Plain(text))
    ensures EndsAtLineBreak(Println(out, text))
    ensures Percentages(ChunkEvents(Println(out, text))) == Percentages(ChunkEvents(out))
    ensures OutputPath(Println(out, text)) == OutputPath(out)
  {
    PrintlnAppends(out, text);
    ClassifyLineMeaning(text);
    PercentagesAppend(ChunkEvents(out), ClassifyLine(text));
    assert Percentages(ClassifyLine(text)) == [];
  }

  /** One more printable line, read back: its progress value, if any, comes last, and it names a video only if nothing before did. */
  lemma {:induction false} EmitPrinted(out: string, p: Printed)
    requires EndsAtLineBreak(out) && Printable(p)
    ensures EndsAtLineBreak(Println(out, Text(p)))
    ensures Percentages(ChunkEvents(Println(out, Text(p)))) ==
      Percentages(ChunkEvents(out)) + if p.ProgressOut? then [Finite(p.percent)] else []
    ensures OutputPath(Println(out, Text(p))) ==
      if OutputPath(out).Some? then OutputPath(out) else if p.OutputOut? then Some(Trim(p.path)) else None
  {
    var read := Percentages(ChunkEvents(out));
    assert read + [] == read;
    match p
    case ProgressOut(n) =>
      assert Text(p) == ProgressLine(n);
      EmitProgress(out, n);
    case StatusOut(s) =>
      assert Text(p) == StatusLine(s);
      EmitStatus(out, s);
    case OutputOut(path) =>
      assert Text(p) == OutputLine(path);
      EmitOutput(out, path);
    case Plain(t) =>
      EmitPlain(out, t);
  }

  /** The read-back of a transcript carries over to one more print call. */
  lemma {:induction false} ReadBackStep(ps: seq<Printed>)
    requires ps != [] && Printable(ps[|ps| - 1])
    requires var init := Transcript(ps[..|ps| - 1]);
      && EndsAtLineBreak(init)
      && Percentages(ChunkEvents(init)) == Progresses(ps[..|ps| - 1])
      && OutputPath(init) == FirstOutput(ps[..|ps| - 1])
    ensures EndsAtLineBreak(Transcript(ps))
    ensures Percentages(ChunkEvents(Transcript(ps))) == Progresses(ps)
    ensures OutputPath(Transcript(ps)) == FirstOutput(ps)
  {
    EmitPrinted(Transcript(ps[..|ps| - 1]), ps[|ps| - 1]);
  }

  /**
   * Whatever a worker prints, as long as every print is printable, the
   * Electron side reads back exactly the progress prints' percentages, in
   * order, and the first output print's path.
   */
  lemma {:induction false} ReadBack(ps: seq<Printed>)
    requires AllPrintable(ps)
    ensures EndsAtLineBreak(Transcript(ps))
    ensures Percentages(ChunkEvents(Transcript(ps))) == Progresses(ps)
    ensures OutputPath(Transcript(ps)) == FirstOutput(ps)
  {
    if ps == [] {
      assert SplitOn("", '\n') == [""];
      assert FindOutputLine([""]).None?;
    } else {
      ReadBack(ps[..|ps| - 1]);
      ReadBackStep(ps);
    }
  }

  /**
   * Everything a sequence of print calls writes to standard output on
   * Windows, where the text stream turns each line break into a carriage
   * return and a line feed.
   */
  function WindowsTranscript(ps: seq<Printed>): string {
    if ps == [] then "" else Println(WindowsTranscript(ps[..|ps| - 1]), Text(ps[|ps| - 1]) + "\r")
  }

  /** The line a printable print call writes holds no line break. */
  lemma {:induction false} PrintableSingleLine(p: Printed)
    requires Printable(p)
    ensures SingleLine(Text(p)) && SingleLine(Text(p) + "\r")
  {
    match p
    case ProgressOut(n) => ProgressTextSingleLine(n);
    case StatusOut(t) => SingleLineConcat("STATUS:", t);
    case OutputOut(path) => SingleLineConcat("OUTPUT:", path);
    case Plain(t) =>
    SingleLineConcat(Text(p), "\r");
  }

  /**
   * On Windows the Electron side reads the same events and the same video
   * path as elsewhere: the carriage return left at the end of each line
   * changes neither.
   */
  lemma {:induction false} WindowsReadBack(ps: seq<Printed>)
    requires AllPrintable(ps)
    ensures EndsAtLineBreak(WindowsTranscript(ps))
    ensures ChunkEvents(WindowsTranscript(ps)) == ChunkEvents(Transcript(ps))
    ensures OutputPath(WindowsTranscript(ps)) == OutputPath(Transcript(ps))
    ensures Percentages(ChunkEvents(WindowsTranscript(ps))) == Progresses(ps)
    ensures OutputPath(WindowsTranscript(ps)) == FirstOutput(ps)
  {
    ReadBack(ps);
    if ps == [] {
    } else {
      var init, last := ps[..|ps| - 1], ps[|ps| - 1];
      WindowsReadBack(init);
      ReadBack(init);
      PrintableSingleLine(last);
      PrintlnAppends(Transcript(init), Text(last));
      PrintlnAppends(WindowsTranscript(init), Text(last) + "\r");
      ClassifyLineCarriageReturn(Text(last));
      LineOutputPathCarriageReturn(Text(last));
    }
  }

  /**
   * A run that exits with 0 after printable prints settles the Electron
   * side's promise with the first output print's path, trimmed.
   */
  lemma {:induction false} RunResolves(ps: seq<Printed>, video: string, errorData: string, defaultVideoPath: string)
    requires AllPrintable(ps) && FirstOutput(ps) == Some(Trim(video))
    ensures CloseResult(Some(0), Transcript(ps), errorData, defaultVideoPath) == Resolved(Trim(video), SuccessMessage)
  {
    ReadBack(ps);
  }

  /**
   * What the Electron side reads from a reported run: on success exactly
   * the given progress values and the video's path, trimmed; after an
   * exception a strict prefix of them and no video.
   */
  lemma {:induction false} ReportedReadBack(printed: seq<Printed>, result: Result<string, string>, success: seq<JsNumber>)
    requires AllPrintable(printed) && Reported(printed, result, success)
    ensures result.Ok? ==>
      Percentages(ChunkEvents(Transcript(printed))) == success && OutputPath(Transcript(printed)) == Some(Trim(result.value))
    ensures result.Err? ==>
      Percentages(ChunkEvents(Transcript(printed))) < success && OutputPath(Transcript(printed)).None?
  {
    ReadBack(printed);
  }

  /**
   * What the video generator did: the lines it printed to standard output,
   * the text it wrote to standard error, and the path it returned or the
   * message of the exception it raised.
   */
  datatype GeneratorRun = GeneratorRun(stdout: seq<string>, stderr: string, result: Result<string, string>)

  /** Lines printed by other code, as plain print calls. */
  function Plains(lines: seq<string>): (ps: seq<Printed>)
    ensures |ps| == |lines| && forall i :: 0 <= i < |lines| ==> ps[i] == Plain(lines[i])
  {
    seq(|lines|, i requires 0 <= i < |lines| => Plain(lines[i]))
  }

  /** The generator never prints a line the Electron side would take for a protocol line. */
  ghost predicate GeneratorQuiet(generate: (seq<string>, string, int) -> GeneratorRun) {
    forall paths, output, duration :: AllPrintable(Plains(generate(paths, output, duration).stdout))
  }

  /**
   * What a worker's prints report about the end of its `try` block, given
   * the progress values of its successful run: on success all of them and,
   * last, the output line naming the video; after an exception only some of
   * them, and no video.
   */
  predicate Reported(printed: seq<Printed>, result: Result<string, string>, success: seq<JsNumber>) {
    match result
    case Ok(video) =>
      && Progresses(printed) == success
      && printed != [] && printed[|printed| - 1] == OutputOut(video)
      && FirstOutput(printed) == Some(Trim(video))
    case Err(_) =>
      Progresses(printed) < success && FirstOutput(printed).None?
  }

  /**
   * How a failed run ends: the error status is the last thing printed, the
   * error line is the last line on standard error, the progress stopped
   * short of the successful sequence and no output line was printed.
   */
  predicate Failed(printed: seq<Printed>, stderr: string, message: string, success: seq<JsNumber>) {
    && printed != [] && printed[|printed| - 1] == StatusOut(ErrorPrefix + message)
    && EndsWith(stderr, ErrorLine(message) + "\n")
    && Progresses(printed) < success && FirstOutput(printed).None?
  }

  /**
   * Creating the video (generator call, then 90, the completion status, 100
   * and the output line): the generator's prints land among the worker's own.
   */
  method Render(printed: seq<Printed>, paths: seq<string>, output: string, duration: int,
                generate: (seq<string>, string, int) -> GeneratorRun)
    returns (out: seq<Printed>, stderr: string, video: Result<string, string>)
    ensures video == generate(paths, output, duration).result
    ensures stderr == generate(paths, output, duration).stderr
    ensures |out| >= |printed| && out[..|printed|] == printed
    ensures video.Ok? ==> out != [] && out[|out| - 1] == OutputOut(video.value)
    ensures Progresses(out) == Progresses(printed) + if video.Ok? then [Finite(90), Finite(100)] else []
    ensures FirstOutput(out) ==
      if FirstOutput(printed).Some? || video.Err? then FirstOutput(printed) else Some(Trim(video.value))
    ensures && AllPrintable(printed) && AllPrintable(Plains(generate(paths, output, duration).stdout))
            && (video.Ok? ==> SingleLine(video.value))
            ==> AllPrintable(out)
  {
    var run := generate(paths, output, duration);
    PlainsAddNothing(printed, Plains(run.stdout));
    AllPrintableAppend(printed, Plains(run.stdout));
    out := printed + Plains(run.stdout);
    stderr := run.stderr;
    video := run.result;
    if video.Ok? {
      Conclude(out, Complete, video.value);
      ghost var generated := out;
      out := out + [ProgressOut(90), StatusOut(Complete), ProgressOut(100), OutputOut(video.value)];
      assert out[..|printed|] == generated[..|printed|];
    }
  }

  /**
   * The `except` block both workers share: the error status on standard
   * output and the `ERROR:` line on standard error; the progress values and
   * the video path read so far stay as they were.
   */
  method ReportFailure(printed: seq<Printed>, stderr: string, message: string, ghost success: seq<JsNumber>)
    returns (out: seq<Printed>, err: string)
    ensures out == printed + [StatusOut(ErrorPrefix + message)]
    ensures err == Println(stderr, ErrorLine(message))
    ensures Progresses(out) == Progresses(printed) && FirstOutput(out) == FirstOutput(printed)
    ensures Reported(printed, Err(message), success) ==> Failed(out, err, message, success)
    ensures AllPrintable(printed) && SingleLine(message) ==> AllPrintable(out)
  {
    PrintStep(printed, StatusOut(ErrorPrefix + message));
    if SingleLine(message) {
      SingleLineConcat(ErrorPrefix, message);
    }
    out := printed + [StatusOut(ErrorPrefix + message)];
    err := Println(stderr, ErrorLine(message));
    assert EndsWith(err, ErrorLine(message) + "\n") by {
      assert err == stderr + (ErrorLine(message) + "\n");
    }
  }
}
