/**
 * The pure logic of the Electron main process (FrontEnd/electron.js) around
 * one slideshow job: which Python executable and argument vector it starts,
 * how a chunk of the worker's standard output becomes progress and status
 * events, and how the job's promise settles when the worker closes.
 */
module Protocol {
  import opened Wrappers
  import opened Strings
  import opened JsBuiltins

  /** A message sent to the renderer: `slideshow-progress` or `slideshow-status`. */
  datatype Event = Progress(percent: JsNumber) | Status(message: string)

  /** How the promise returned to the renderer settles. */
  datatype Settlement =
    | Resolved(videoPath: string, message: string)  // resolve({success: true, videoPath, message})
    | Failed(error: string, code: Option<int>)       // reject({success: false, error, code})
    | SpawnFailed(error: string)                     // reject({success: false, error}) from the 'error' event
    | Threw(error: string)                           // the promise executor threw before spawning

  const SuccessMessage: string := "Slideshow generated successfully!"
  const GenericFailure: string := "Python process failed"
  const SpawnFailurePrefix: string := "Failed to start Python process: "

  // ---------------------------------------------------------------------------
  // Executable and argument vector
  // ---------------------------------------------------------------------------

  /** The separator `path.join` uses on the platform. */
  function Separator(platform: string): char {
    if platform == "win32" then '\\' else '/'
  }

  /** `path.join(a, b, c)` of already normalised, non-empty segments. */
  function JoinPath(platform: string, a: string, b: string, c: string): string {
    a + [Separator(platform)] + b + [Separator(platform)] + c
  }

  /** The backend directory's virtual environment, `<root>/backend/venv`. */
  function VenvPath(platform: string, appRoot: string): string {
    JoinPath(platform, appRoot, "backend", "venv")
  }

  /** The worker script, `<root>/backend/slideshow.py`. */
  function ScriptPath(platform: string, appRoot: string): string {
    JoinPath(platform, appRoot, "backend", "slideshow.py")
  }

  /** The fallback video location, `<root>/output/slideshow.mp4`. */
  function DefaultVideoPath(platform: string, appRoot: string): string {
    JoinPath(platform, appRoot, "output", "slideshow.mp4")
  }

  /**
   * The interpreter to start: the virtual environment's own Python when the
   * environment exists (`Scripts\python.exe` on Windows, `bin/python`
   * elsewhere), otherwise the system `python3`.
   */
  function PythonExecutable(venvExists: bool, platform: string, appRoot: string): (exe: string)
    ensures exe == "python3" <==> !venvExists
    ensures venvExists ==> StartsWith(exe, VenvPath(platform, appRoot) + [Separator(platform)])
    ensures venvExists && platform == "win32" ==> EndsWith(exe, "\\Scripts\\python.exe")
    ensures venvExists && platform != "win32" ==> EndsWith(exe, "/bin/python")
  {
    if venvExists then
      var venv := VenvPath(platform, appRoot);
      var sep := Separator(platform);
      var tail := if platform == "win32" then "\\Scripts\\python.exe" else "/bin/python";
      assert tail[0] == sep;
      var exe := venv + tail;
      assert exe[..|venv| + 1] == venv + [sep];
      assert exe[|exe| - |tail|..] == tail;
      assert |exe| > 7;
      exe
    else
      "python3"
  }

  // ---------------------------------------------------------------------------
  // Standard output, chunk by chunk
  // ---------------------------------------------------------------------------

  /** The concatenation of what `f` gives for each element, in order. */
  function FlatMap<T, U>(f: T -> seq<U>, xs: seq<T>): seq<U> {
    if xs == [] then [] else f(xs[0]) + FlatMap(f, xs[1..])
  }

  lemma {:induction false} FlatMapAppend<T, U>(f: T -> seq<U>, xs: seq<T>, ys: seq<T>)
    ensures FlatMap(f, xs + ys) == FlatMap(f, xs) + FlatMap(f, ys)
  {
    if xs == [] {
      assert xs + ys == ys;
    } else {
      assert (xs + ys)[0] == xs[0];
      assert (xs + ys)[1..] == xs[1..] + ys;
      FlatMapAppend(f, xs[1..], ys);
    }
  }

  lemma {:induction false} FlatMapSingle<T, U>(f: T -> seq<U>, x: T)
    ensures FlatMap(f, [x]) == f(x)
  {
    assert [x][1..] == [];
  }

  /**
   * The events one line of a chunk produces: a `PROGRESS:` line gives the
   * `parseInt` of its second `:`-separated field, with no range check; a
   * `STATUS:` line gives its trimmed remainder; any other line gives nothing.
   */
  function ClassifyLine(line: string): (events: seq<Event>)
    ensures |events| <= 1
  {
    if StartsWith(line, "PROGRESS:") then
      assert line == line[..8] + [':'] + line[9..];
      SecondPiece(line[..8], line[9..], ':');
      [Progress(ParseInt(SplitOn(line, ':')[1]))]
    else if StartsWith(line, "STATUS:") then
      [Status(Trim(line[7..]))]
    else
      []
  }

  /** The events of a sequence of lines, in line order. */
  function LinesEvents(lines: seq<string>): seq<Event> {
    FlatMap(ClassifyLine, lines)
  }

  /** The events one `data` chunk produces: its lines are split on their own. */
  function ChunkEvents(chunk: string): seq<Event> {
    LinesEvents(SplitOn(chunk, '\n'))
  }

  /** All chunks of a stream, concatenated. */
  function Concat(chunks: seq<string>): string {
    if chunks == [] then "" else chunks[0] + Concat(chunks[1..])
  }

  /** The events a whole stream produces, chunk after chunk. */
  function StreamEvents(chunks: seq<string>): seq<Event> {
    FlatMap(ChunkEvents, chunks)
  }

  /** Text that is empty or ends with a line break. */
  predicate EndsAtLineBreak(s: string) {
    s == [] || s[|s| - 1] == '\n'
  }

  /** The second `:`-separated field of a `PROGRESS:` line is the text after the prefix up to the next `:`. */
  lemma {:induction false} ProgressField(line: string)
    requires StartsWith(line, "PROGRESS:")
    ensures |SplitOn(line, ':')| >= 2 && SplitOn(line, ':')[1] == SplitOn(line[9..], ':')[0]
  {
    assert line == line[..8] + [':'] + line[9..];
    SecondPiece(line[..8], line[9..], ':');
  }

  /**
   * What each line yields. A `PROGRESS:` line yields one progress event whose
   * value is `parseInt` of the text after the prefix up to the next `:` (the
   * first piece of that text, see `FirstPiece`); a `STATUS:` line yields one
   * status event, its text after the seven-character prefix, trimmed; every
   * other line yields nothing.
   */
  lemma {:induction false} ClassifyLineMeaning(line: string)
    ensures StartsWith(line, "PROGRESS:") ==>
      ClassifyLine(line) == [Progress(ParseInt(SplitOn(line[9..], ':')[0]))]
    ensures !StartsWith(line, "PROGRESS:") && StartsWith(line, "STATUS:") ==>
      ClassifyLine(line) == [Status(Trim(line[7..]))]
    ensures !StartsWith(line, "PROGRESS:") && !StartsWith(line, "STATUS:") ==> ClassifyLine(line) == []
  {
    if StartsWith(line, "PROGRESS:") {
      ProgressField(line);
    }
  }

  /** Events of consecutive lines are the events of each part, in order. */
  lemma {:induction false} LinesEventsAppend(a: seq<string>, b: seq<string>)
    ensures LinesEvents(a + b) == LinesEvents(a) + LinesEvents(b)
  {
    FlatMapAppend(ClassifyLine, a, b);
  }

  /** One more line adds its own events. */
  lemma {:induction false} LinesEventsStep(lines: seq<string>, i: nat)
    requires i < |lines|
    ensures LinesEvents(lines[..i + 1]) == LinesEvents(lines[..i]) + ClassifyLine(lines[i])
  {
    assert lines[..i + 1] == lines[..i] + [lines[i]];
    LinesEventsAppend(lines[..i], [lines[i]]);
    FlatMapSingle(ClassifyLine, lines[i]);
  }

  /** A chunk that is exactly one line produces that line's events. */
  lemma {:induction false} OneLineChunk(line: string)
    requires '\n' !in line
    ensures ChunkEvents(line + "\n") == ClassifyLine(line)
  {
    assert line + "\n" == line + ['\n'] + "";
    SplitOnAppend(line, "", '\n');
    SplitOnFree(line, '\n');
    SplitOnFree("", '\n');
    assert ClassifyLine("") == [];
    assert SplitOn(line + "\n", '\n') == [line, ""];
    assert FlatMap(ClassifyLine, [line, ""]) == ClassifyLine(line) + FlatMap(ClassifyLine, [""]);
  }

  /** Text ending at a line break can be parsed apart from what follows it. */
  lemma {:induction false} ChunkEventsAppend(a: string, b: string)
    requires EndsAtLineBreak(a)
    ensures ChunkEvents(a + b) == ChunkEvents(a) + ChunkEvents(b)
  {
    if a != [] {
      var a' := a[..|a| - 1];
      assert a == a' + ['\n'] + "";
      assert a + b == a' + ['\n'] + b;
      SplitOnAppend(a', "", '\n');
      SplitOnAppend(a', b, '\n');
      SplitOnFree("", '\n');
      assert ClassifyLine("") == [];
      assert FlatMap(ClassifyLine, [""]) == [];
      LinesEventsAppend(SplitOn(a', '\n'), [""]);
      LinesEventsAppend(SplitOn(a', '\n'), SplitOn(b, '\n'));
    } else {
      assert a + b == b;
    }
  }

  /**
   * When every chunk but the last ends at a line break, the chunked stream
   * produces exactly the events of the whole text.
   */
  lemma {:induction false} StreamEventsAligned(chunks: seq<string>)
    requires forall i :: 0 <= i < |chunks| - 1 ==> EndsAtLineBreak(chunks[i])
    ensures StreamEvents(chunks) == ChunkEvents(Concat(chunks))
  {
    if chunks == [] {
    } else if |chunks| == 1 {
      assert chunks == [chunks[0]];
      assert chunks[1..] == [];
      assert Concat(chunks) == chunks[0] + "" == chunks[0];
      FlatMapSingle(ChunkEvents, chunks[0]);
    } else {
      StreamEventsAligned(chunks[1..]);
      ChunkEventsAppend(chunks[0], Concat(chunks[1..]));
    }
  }

  /** A line written as `PROGRESS:` and an integer in decimal reads back as that integer. */
  lemma {:induction false} ProgressLineValue(n: int)
    ensures ClassifyLine("PROGRESS:" + IntToDecimal(n)) == [Progress(Finite(n))]
  {
    var d := IntToDecimal(n);
    assert ':' !in d by {
      if n < 0 {
        assert d == "-" + NatToDecimal(-n);
        assert AllDigits(d[1..]);
      } else {
        assert AllDigits(d);
      }
    }
    assert "PROGRESS:" + d == "PROGRESS" + [':'] + d;
    SecondPiece("PROGRESS", d, ':');
    SplitOnFree(d, ':');
    ParseIntOfDecimal(n, "");
    assert d + "" == d;
  }

  /** `PROGRESS:` and a decimal integer carries no line break. */
  lemma {:induction false} ProgressTextSingleLine(n: int)
    ensures '\n' !in "PROGRESS:" + IntToDecimal(n)
  {
    var d := IntToDecimal(n);
    var line := "PROGRESS:" + d;
    if n < 0 {
      assert d == "-" + NatToDecimal(-n);
      assert AllDigits(d[1..]);
    } else {
      assert AllDigits(d);
    }
    assert forall i :: 9 <= i < |line| ==> line[i] == d[i - 9];
  }

  /** A printed progress line, in a chunk of its own, reads back as its number. */
  lemma {:induction false} ProgressChunk(n: int)
    ensures ChunkEvents("PROGRESS:" + IntToDecimal(n) + "\n") == [Progress(Finite(n))]
  {
    ProgressTextSingleLine(n);
    ProgressLineValue(n);
    OneLineChunk("PROGRESS:" + IntToDecimal(n));
  }

  /** A progress line cut before its line break still reads as its number. */
  lemma {:induction false} UnterminatedProgressChunk(n: int)
    ensures ChunkEvents("PROGRESS:" + IntToDecimal(n)) == [Progress(Finite(n))]
  {
    var line := "PROGRESS:" + IntToDecimal(n);
    ProgressTextSingleLine(n);
    ProgressLineValue(n);
    SplitOnFree(line, '\n');
    FlatMapSingle(ClassifyLine, line);
  }

  /** A lone digit and a line break produce nothing. */
  lemma {:induction false} DigitChunk(r: nat)
    requires r < 10
    ensures ChunkEvents([DigitChar(r)] + "\n") == []
  {
    var digit := [DigitChar(r)];
    OneLineChunk(digit);
    assert !StartsWith(digit, "PROGRESS:") && !StartsWith(digit, "STATUS:");
  }

  /**
   * There is no carry-over buffer: a line cut in two by a chunk boundary is
   * read as two lines. Sent whole, `PROGRESS:` and a number of two or more
   * digits reads as that number; cut before its last digit, it reads as the
   * number without that digit, and the digit alone is ignored.
   */
  lemma {:induction false} ChunkBoundaryTruncatesProgress(q: nat, r: nat)
    requires 0 < q && r < 10
    ensures IntToDecimal(q * 10 + r) == IntToDecimal(q) + [DigitChar(r)]
    ensures ChunkEvents("PROGRESS:" + IntToDecimal(q * 10 + r) + "\n") == [Progress(Finite(q * 10 + r))]
    ensures StreamEvents(["PROGRESS:" + IntToDecimal(q), [DigitChar(r)] + "\n"]) == [Progress(Finite(q))]
  {
    var n := q * 10 + r;
    assert n / 10 == q && n % 10 == r;
    ProgressChunk(n);
    var first := "PROGRESS:" + IntToDecimal(q);
    var second := [DigitChar(r)] + "\n";
    UnterminatedProgressChunk(q);
    DigitChunk(r);
    assert [first, second] == [first] + [second];
    FlatMapAppend(ChunkEvents, [first], [second]);
    FlatMapSingle(ChunkEvents, first);
    FlatMapSingle(ChunkEvents, second);
  }

  // ---------------------------------------------------------------------------
  // Settling the job when the worker closes
  // ---------------------------------------------------------------------------

  /** `lines.find(line => line.startsWith('OUTPUT:'))`, as an index. */
  function FindOutputLine(lines: seq<string>): (r: Option<nat>)
    ensures r.Some? ==> r.value < |lines| && StartsWith(lines[r.value], "OUTPUT:")
    ensures r.Some? ==> forall j :: 0 <= j < r.value ==> !StartsWith(lines[j], "OUTPUT:")
    ensures r.None? ==> forall j :: 0 <= j < |lines| ==> !StartsWith(lines[j], "OUTPUT:")
  {
    if lines == [] then None
    else if StartsWith(lines[0], "OUTPUT:") then Some(0)
    else match FindOutputLine(lines[1..])
      case None => None
      case Some(i) => Some(i + 1)
  }

  /** The trimmed remainder of the first `OUTPUT:` line of the text, if there is one. */
  function OutputPath(outputData: string): Option<string> {
    var lines := SplitOn(outputData, '\n');
    match FindOutputLine(lines)
    case None => None
    case Some(i) => Some(Trim(lines[i][7..]))
  }

  /**
   * The settlement on `close`: exit code 0 resolves with the first `OUTPUT:`
   * path (or the default location); any other code, null included, rejects
   * with the accumulated standard error, or a generic message when there was
   * none.
   */
  function CloseResult(code: Option<int>, outputData: string, errorData: string,
                       defaultVideoPath: string): (s: Settlement)
    ensures s.Resolved? <==> code == Some(0)
    ensures s.Resolved? ==> s.message == SuccessMessage
    ensures s.Resolved? && OutputPath(outputData).Some? ==> s.videoPath == OutputPath(outputData).value
    ensures s.Resolved? && OutputPath(outputData).None? ==> s.videoPath == defaultVideoPath
    ensures !s.Resolved? ==> s.Failed? && s.code == code
    ensures s.Failed? ==> (s.error == errorData <==> errorData != "")
    ensures s.Failed? && errorData == "" ==> s.error == GenericFailure
  {
    if code == Some(0) then
      var videoPath := match OutputPath(outputData)
        case Some(p) => p
        case None => defaultVideoPath;
      Resolved(videoPath, SuccessMessage)
    else
      Failed(if errorData != "" then errorData else GenericFailure, code)
  }

  /** The settlement when the process cannot be started. */
  function SpawnErrorResult(message: string): (s: Settlement)
    ensures s.SpawnFailed? && EndsWith(s.error, message)
    ensures StartsWith(s.error, SpawnFailurePrefix)
  {
    SpawnFailed(SpawnFailurePrefix + message)
  }

  /** The `OUTPUT:` path a single line carries, if it is an `OUTPUT:` line. */
  function LineOutputPath(line: string): Option<string> {
    if StartsWith(line, "OUTPUT:") then Some(Trim(line[7..])) else None
  }

  /** The first match in two runs of lines: the first run's, or else the second's, shifted. */
  lemma {:induction false} FindOutputLineAppend(a: seq<string>, b: seq<string>)
    ensures FindOutputLine(a).Some? ==> FindOutputLine(a + b) == FindOutputLine(a)
    ensures FindOutputLine(a).None? && FindOutputLine(b).None? ==> FindOutputLine(a + b).None?
    ensures FindOutputLine(a).None? && FindOutputLine(b).Some? ==>
      FindOutputLine(a + b) == Some(|a| + FindOutputLine(b).value)
  {
    var r := FindOutputLine(a + b);
    assert forall j :: 0 <= j < |a| ==> (a + b)[j] == a[j];
    assert forall j :: 0 <= j < |b| ==> (a + b)[|a| + j] == b[j];
    if FindOutputLine(a).Some? {
      var i := FindOutputLine(a).value;
      assert StartsWith((a + b)[i], "OUTPUT:");
      assert r.Some? && r.value <= i;
    } else if FindOutputLine(b).Some? {
      var j := FindOutputLine(b).value;
      assert StartsWith((a + b)[|a| + j], "OUTPUT:");
      assert r.Some? && |a| <= r.value <= |a| + j;
    } else {
      assert forall k :: 0 <= k < |a + b| ==> !StartsWith((a + b)[k], "OUTPUT:") by {
        forall k | 0 <= k < |a + b|
          ensures !StartsWith((a + b)[k], "OUTPUT:")
        {
          if k < |a| {
            assert (a + b)[k] == a[k];
          } else {
            assert (a + b)[k] == b[k - |a|];
          }
        }
      }
    }
  }

  /**
   * The first `OUTPUT:` line wins: for text that ends at a line break, the
   * path of the text with more appended is the text's own path if it has one,
   * and otherwise the path of what was appended.
   */
  lemma {:induction false} OutputPathAppend(a: string, b: string)
    requires EndsAtLineBreak(a)
    ensures OutputPath(a + b) == if OutputPath(a).Some? then OutputPath(a) else OutputPath(b)
  {
    if a != [] {
      var a' := a[..|a| - 1];
      assert a == a' + ['\n'] + "";
      assert a + b == a' + ['\n'] + b;
      SplitOnAppend(a', "", '\n');
      SplitOnAppend(a', b, '\n');
      var la := SplitOn(a', '\n');
      FindOutputLineAppend(la, [""]);
      FindOutputLineAppend(la, SplitOn(b, '\n'));
      assert (la + SplitOn(b, '\n'))[..|la|] == la;
    } else {
      assert a + b == b;
    }
  }

  /** A one-line text carries that line's path. */
  lemma {:induction false} OneLineOutputPath(line: string)
    requires '\n' !in line
    ensures OutputPath(line + "\n") == LineOutputPath(line)
  {
    assert line + "\n" == line + ['\n'] + "";
    SplitOnAppend(line, "", '\n');
    SplitOnFree(line, '\n');
  }

  /** The text of a stream read in two runs of chunks is the text of each run, in order. */
  lemma {:induction false} ConcatAppend(a: seq<string>, b: seq<string>)
    ensures Concat(a + b) == Concat(a) + Concat(b)
    decreases |a|
  {
    if a == [] {
      assert a + b == b;
    } else {
      assert (a + b)[0] == a[0];
      assert (a + b)[1..] == a[1..] + b;
      ConcatAppend(a[1..], b);
      Regroup(a[0], Concat(a[1..]), Concat(b));
    }
  }

  /** One more chunk appends its text and its events. */
  lemma {:induction false} StreamStep(chunks: seq<string>, i: nat)
    requires i < |chunks|
    ensures Concat(chunks[..i + 1]) == Concat(chunks[..i]) + chunks[i]
    ensures StreamEvents(chunks[..i + 1]) == StreamEvents(chunks[..i]) + ChunkEvents(chunks[i])
  {
    assert chunks[..i + 1] == chunks[..i] + [chunks[i]];
    ConcatAppend(chunks[..i], [chunks[i]]);
    assert Concat([chunks[i]]) == chunks[i] + Concat([]) by {
      assert [chunks[i]][1..] == [];
    }
    FlatMapAppend(ChunkEvents, chunks[..i], [chunks[i]]);
    FlatMapSingle(ChunkEvents, chunks[i]);
  }

  /** A carriage return after the progress field does not change the number read from it. */
  lemma {:induction false} ProgressFieldCarriageReturn(rest: string)
    ensures ParseInt(SplitOn(rest + "\r", ':')[0]) == ParseInt(SplitOn(rest, ':')[0])
  {
    FirstPieceAppend(rest, '\r', ':');
    if ':' !in rest {
      SplitOnFree(rest, ':');
      ParseIntAppendWhiteSpace(rest, '\r');
    }
  }

  /**
   * A line that ends with a carriage return, as a line printed by Python on
   * Windows does once it is split on line feeds, yields the same events as
   * the line without it.
   */
  lemma {:induction false} ClassifyLineCarriageReturn(line: string)
    ensures ClassifyLine(line + "\r") == ClassifyLine(line)
  {
    StartsWithAppend(line, '\r', "PROGRESS:");
    StartsWithAppend(line, '\r', "STATUS:");
    if StartsWith(line, "PROGRESS:") {
      ProgressCarriageReturn(line);
    } else if StartsWith(line, "STATUS:") {
      StatusCarriageReturn(line);
    }
  }

  lemma {:induction false} ProgressCarriageReturn(line: string)
    requires StartsWith(line, "PROGRESS:") && StartsWith(line + "\r", "PROGRESS:")
    ensures ClassifyLine(line + "\r") == ClassifyLine(line)
  {
    var l := line + "\r";
    ProgressField(line);
    ProgressField(l);
    assert l[9..] == line[9..] + "\r";
    ProgressFieldCarriageReturn(line[9..]);
  }

  lemma {:induction false} StatusCarriageReturn(line: string)
    requires StartsWith(line, "STATUS:") && StartsWith(line + "\r", "STATUS:")
    requires !StartsWith(line, "PROGRESS:") && !StartsWith(line + "\r", "PROGRESS:")
    ensures ClassifyLine(line + "\r") == ClassifyLine(line)
  {
    assert (line + "\r")[7..] == line[7..] + "\r";
    TrimAppendWhiteSpace(line[7..], '\r');
  }

  /** A line that ends with a carriage return names the same path as the line without it. */
  lemma {:induction false} LineOutputPathCarriageReturn(line: string)
    ensures LineOutputPath(line + "\r") == LineOutputPath(line)
  {
    StartsWithAppend(line, '\r', "OUTPUT:");
    if StartsWith(line, "OUTPUT:") {
      assert (line + "\r")[7..] == line[7..] + "\r";
      TrimAppendWhiteSpace(line[7..], '\r');
    }
  }
}
