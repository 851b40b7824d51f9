/**
 * The Pinterest worker's `main` (backend/slideshow.py): the print calls it
 * makes while it connects, fetches, downloads and renders, the error report
 * every exception leads to, and its exit code.
 */
module RemoteWorker {
  import opened Wrappers
  import opened Strings
  import opened JsBuiltins
  import opened WorkerOutput
  import opened PinterestApi

  const TokenMissing: string := "Pinterest API token not found in .env file"

  // The status messages only this worker prints, in the order it prints them.
  const Connecting: Line := "Connecting to Pinterest..."
  const Fetching: Line := "Fetching pins from board..."
  const Downloading: Line := "Downloading images..."

  /** The progress values of a successful run. */
  const SuccessProgress: seq<JsNumber> :=
    [Finite(10), Finite(20), Finite(40), Finite(60), Finite(90), Finite(100)]

  /** `if not api_token`: the variable is unset or empty. */
  predicate TokenMissingFrom(token: Option<string>) {
    token.None? || token.value == ""
  }

  /** The status line reporting how many pins were fetched. */
  function FoundStatus(count: nat): (s: string)
    ensures SingleLine(s)
  {
    assert AllDigits(NatToDecimal(count));
    SingleLineConcat("Found ", NatToDecimal(count));
    SingleLineConcat("Found " + NatToDecimal(count), " pins");
    "Found " + NatToDecimal(count) + " pins"
  }

  /**
   * What the `try` block of `main()` ends with: the video path the
   * generator returns, or the message of the first exception, raised by the
   * token check, the fetch, the downloads or the generator.
   */
  function Outcome(boardUrl: string, duration: int, output: string, numImages: Option<int>, token: Option<string>,
                   fetch: string -> Result<seq<Pin>, string>, draw: int -> int,
                   download: string -> Option<string>, generate: (seq<string>, string, int) -> GeneratorRun)
    : Result<string, string>
  {
    if TokenMissingFrom(token) then Err(TokenMissing)
    else Fetched(boardUrl, duration, output, numImages, fetch, draw, download, generate)
  }

  /** The rest of the run once the token is there: the fetch, then the downloads and the generator. */
  function Fetched(boardUrl: string, duration: int, output: string, numImages: Option<int>,
                   fetch: string -> Result<seq<Pin>, string>, draw: int -> int,
                   download: string -> Option<string>, generate: (seq<string>, string, int) -> GeneratorRun)
    : Result<string, string>
  {
    match fetch(ExtractBoardId(boardUrl))
    case Err(e) => Err(e)
    case Ok(pins) => FromPins(pins, duration, output, numImages, draw, download, generate)
  }

  /** The rest of the run once the pins are fetched: the downloads, then the generator. */
  function FromPins(pins: seq<Pin>, duration: int, output: string, numImages: Option<int>, draw: int -> int,
                    download: string -> Option<string>, generate: (seq<string>, string, int) -> GeneratorRun)
    : Result<string, string>
  {
    match DownloadResult(pins, numImages, draw, download)
    case Err(e) => Err(e)
    case Ok(paths) => generate(paths, output, duration).result
  }

  /** The progress values of a successful run rise strictly and stay within 0 to 100. */
  lemma {:induction false} SuccessProgressRises()
    ensures forall i :: 0 <= i < |SuccessProgress| ==> 0 <= SuccessProgress[i].value <= 100
    ensures forall i, j :: 0 <= i < j < |SuccessProgress| ==> SuccessProgress[i].value < SuccessProgress[j].value
  {
  }

  /** How the progress values of a run build up, stage by stage, and where a failed run can stop.
      These facts only spell out concatenations of constant lists; the stage methods call this
      lemma so that the solver does not have to unfold those lists inside their own proofs. */
  lemma {:induction false} SuccessProgressSteps()
    ensures [Finite(10)] < SuccessProgress && [Finite(10)] + [Finite(20)] < SuccessProgress
    ensures [Finite(10)] + [Finite(20), Finite(40)] == [Finite(10), Finite(20), Finite(40)]
    ensures [Finite(10), Finite(20), Finite(40)] + [] < SuccessProgress
    ensures [Finite(10), Finite(20), Finite(40)] + [Finite(60)] + [] < SuccessProgress
    ensures [Finite(10), Finite(20), Finite(40)] + [Finite(60)] + [Finite(90), Finite(100)] == SuccessProgress
  {
  }

  /** Lines 42-49: report 20, fetch the board's pins, report their number and 40. */
  method FetchStage(printed: seq<Printed>, boardUrl: string, fetch: string -> Result<seq<Pin>, string>)
    returns (out: seq<Printed>, pins: Result<seq<Pin>, string>)
    ensures pins == fetch(ExtractBoardId(boardUrl))
    ensures |out| > |printed| && out[..|printed|] == printed && out[|printed|] == StatusOut(Fetching)
    ensures Progresses(out) == Progresses(printed) + if pins.Ok? then [Finite(20), Finite(40)] else [Finite(20)]
    ensures FirstOutput(out) == FirstOutput(printed)
    ensures AllPrintable(out) <==> AllPrintable(printed)
  {
    var boardId := ExtractBoardId(boardUrl);
    Announce(printed, Fetching, 20);
    out := printed + [StatusOut(Fetching), ProgressOut(20)];
    pins := fetch(boardId);
    if pins.Ok? {
      Announce(out, FoundStatus(|pins.value|), 40);
      out := out + [StatusOut(FoundStatus(|pins.value|)), ProgressOut(40)];
    }
  }

  /** Lines 52-58: announce the downloads, download the drawn pins, report 60. */
  method DownloadStage(printed: seq<Printed>, pins: seq<Pin>, numImages: Option<int>, draw: int -> int,
                       download: string -> Option<string>)
    returns (out: seq<Printed>, paths: Result<seq<string>, string>)
    ensures paths == DownloadResult(pins, numImages, draw, download)
    ensures |out| > |printed| && out[..|printed|] == printed && out[|printed|] == StatusOut(Downloading)
    ensures Progresses(out) == Progresses(printed) + if paths.Ok? then [Finite(60)] else []
    ensures FirstOutput(out) == FirstOutput(printed)
    ensures AllPrintable(out) <==> AllPrintable(printed)
  {
    PrintStep(printed, StatusOut(Downloading));
    out := printed + [StatusOut(Downloading)];
    paths := DownloadPins(pins, numImages, draw, download);
    if paths.Ok? {
      PrintStep(out, ProgressOut(60));
      out := out + [ProgressOut(60)];
    }
  }

  /** Lines 60-77: announce the video, then render. */
  method CreateStage(printed: seq<Printed>, paths: seq<string>, output: string, duration: int,
                     generate: (seq<string>, string, int) -> GeneratorRun)
    returns (out: seq<Printed>, stderr: string, video: Result<string, string>)
    requires FirstOutput(printed).None?
    ensures video == generate(paths, output, duration).result
    ensures |out| > |printed| && out[..|printed|] == printed
    ensures video.Ok? ==> out[|out| - 1] == OutputOut(video.value)
    ensures Progresses(out) == Progresses(printed) + if video.Ok? then [Finite(90), Finite(100)] else []
    ensures FirstOutput(out) == if video.Ok? then Some(Trim(video.value)) else None
    ensures && AllPrintable(printed) && GeneratorQuiet(generate) && (video.Ok? ==> SingleLine(video.value))
            ==> AllPrintable(out)
  {
    var announced := printed + [StatusOut(Creating)];
    PrintStep(printed, StatusOut(Creating));
    out, stderr, video := Render(announced, paths, output, duration, generate);
    Announced(printed, announced, out, video, AllPrintable(Plains(generate(paths, output, duration).stdout)));
  }

  /** What rendering after the creating status leaves, in terms of what was printed before that status. */
  lemma {:induction false} Announced(printed: seq<Printed>, announced: seq<Printed>, out: seq<Printed>,
                                     video: Result<string, string>, quiet: bool)
    requires announced == printed + [StatusOut(Creating)] && FirstOutput(printed).None?
    requires Progresses(announced) == Progresses(printed) + []
    requires FirstOutput(announced) == FirstOutput(printed)
    requires AllPrintable(announced) <==> AllPrintable(printed) && Printable(StatusOut(Creating))
    requires |out| >= |announced| && out[..|announced|] == announced
    requires video.Ok? ==> out != [] && out[|out| - 1] == OutputOut(video.value)
    requires Progresses(out) == Progresses(announced) + if video.Ok? then [Finite(90), Finite(100)] else []
    requires FirstOutput(out) ==
      if FirstOutput(announced).Some? || video.Err? then FirstOutput(announced) else Some(Trim(video.value))
    requires AllPrintable(announced) && quiet && (video.Ok? ==> SingleLine(video.value)) ==> AllPrintable(out)
    ensures |out| > |printed| && out[..|printed|] == printed
    ensures Progresses(out) == Progresses(printed) + if video.Ok? then [Finite(90), Finite(100)] else []
    ensures FirstOutput(out) == if video.Ok? then Some(Trim(video.value)) else None
    ensures AllPrintable(printed) && quiet && (video.Ok? ==> SingleLine(video.value)) ==> AllPrintable(out)
  {
    assert Progresses(printed) + [] == Progresses(printed);
    assert out[..|printed|] == out[..|announced|][..|printed|];
  }

  /** Lines 52-77, once the pins are fetched: download, then create the video. */
  method PinsStage(printed: seq<Printed>, pins: seq<Pin>, duration: int, output: string, numImages: Option<int>,
                   draw: int -> int, download: string -> Option<string>,
                   generate: (seq<string>, string, int) -> GeneratorRun)
    returns (out: seq<Printed>, stderr: string, result: Result<string, string>)
    requires Progresses(printed) == [Finite(10), Finite(20), Finite(40)] && FirstOutput(printed).None?
    ensures result == FromPins(pins, duration, output, numImages, draw, download, generate)
    ensures |out| > |printed| && out[..|printed|] == printed
    ensures Reported(out, result, SuccessProgress)
    ensures GeneratorQuiet(generate) && AllPrintable(printed) && (result.Ok? ==> SingleLine(result.value)) ==>
      AllPrintable(out)
  {
    stderr := "";
    var paths;
    out, paths := DownloadStage(printed, pins, numImages, draw, download);
    if paths.Err? {
      SuccessProgressSteps();
      result := Err(paths.error);
      return;
    }
    ghost var downloaded := out;
    out, stderr, result := CreateStage(out, paths.value, output, duration, generate);
    SuccessProgressSteps();
    assert out[..|printed|] == printed by {
      assert out[..|printed|] == out[..|downloaded|][..|printed|];
    }
  }

  /** Lines 39-77, once the token is there: fetch, then the rest. */
  method Pipeline(printed: seq<Printed>, boardUrl: string, duration: int, output: string, numImages: Option<int>,
                  fetch: string -> Result<seq<Pin>, string>, draw: int -> int,
                  download: string -> Option<string>, generate: (seq<string>, string, int) -> GeneratorRun)
    returns (out: seq<Printed>, stderr: string, result: Result<string, string>)
    requires Progresses(printed) == [Finite(10)] && FirstOutput(printed).None?
    ensures result == Fetched(boardUrl, duration, output, numImages, fetch, draw, download, generate)
    ensures |out| > |printed| && out[..|printed|] == printed
    ensures Reported(out, result, SuccessProgress)
    ensures GeneratorQuiet(generate) && AllPrintable(printed) && (result.Ok? ==> SingleLine(result.value)) ==>
      AllPrintable(out)
  {
    var pins;
    out, pins := FetchStage(printed, boardUrl, fetch);
    if pins.Err? {
      SuccessProgressSteps();
      stderr := "";
      result := Err(pins.error);
      return;
    }
    ghost var fetched := out;
    SuccessProgressSteps();
    out, stderr, result := PinsStage(out, pins.value, duration, output, numImages, draw, download, generate);
    assert out[..|printed|] == printed by {
      assert out[..|printed|] == out[..|fetched|][..|printed|];
    }
  }

  /**
   * The `try` block of `main()` (lines 30-77): the print calls of each step
   * in order, what the generator wrote to standard error, and the video
   * path or the message of the exception that ended the run.
   */
  method Attempt(boardUrl: string, duration: int, output: string, numImages: Option<int>, token: Option<string>,
                 fetch: string -> Result<seq<Pin>, string>, draw: int -> int,
                 download: string -> Option<string>, generate: (seq<string>, string, int) -> GeneratorRun)
    returns (printed: seq<Printed>, stderr: string, result: Result<string, string>)
    ensures result == Outcome(boardUrl, duration, output, numImages, token, fetch, draw, download, generate)
    ensures |printed| >= 2 && printed[0] == StatusOut(Connecting) && printed[1] == ProgressOut(10)
    ensures TokenMissingFrom(token) ==>
      result == Err(TokenMissing) && printed == [StatusOut(Connecting), ProgressOut(10)] && stderr == ""
    ensures Reported(printed, result, SuccessProgress)
    ensures GeneratorQuiet(generate) && (result.Ok? ==> SingleLine(result.value)) ==> AllPrintable(printed)
  {
    printed := [StatusOut(Connecting), ProgressOut(10)];
    assert Progresses(printed) == [Finite(10)] && FirstOutput(printed).None? && AllPrintable(printed) by {
      Announce([], Connecting, 10);
      assert [] + printed == printed;
    }
    if TokenMissingFrom(token) {
      SuccessProgressSteps();
      stderr := "";
      result := Err(TokenMissing);
    } else {
      ghost var connected := printed;
      printed, stderr, result := Pipeline(printed, boardUrl, duration, output, numImages, fetch, draw, download, generate);
      assert printed[0] == connected[0] && printed[1] == connected[1] by {
        assert printed[..|connected|][0] == printed[0] && printed[..|connected|][1] == printed[1];
      }
    }
  }

  /**
   * `main()` (lines 30-82), whose return value is the process's exit code:
   * the attempt, and after any exception the error report on both streams
   * and 1.
   */
  method Run(boardUrl: string, duration: int, output: string, numImages: Option<int>, token: Option<string>,
              fetch: string -> Result<seq<Pin>, string>, draw: int -> int,
              download: string -> Option<string>, generate: (seq<string>, string, int) -> GeneratorRun)
    returns (printed: seq<Printed>, stderr: string, code: int)
    ensures var outcome := Outcome(boardUrl, duration, output, numImages, token, fetch, draw, download, generate);
      && code == (if outcome.Ok? then 0 else 1)
      && (outcome.Ok? ==> Reported(printed, outcome, SuccessProgress))
      && (outcome.Err? ==> Failed(printed, stderr, outcome.error, SuccessProgress))
      && (GeneratorQuiet(generate) && SingleLine(match outcome case Ok(video) => video case Err(e) => e) ==>
            AllPrintable(printed))
  {
    var result;
    printed, stderr, result := Attempt(boardUrl, duration, output, numImages, token, fetch, draw, download, generate);
    if result.Err? {
      printed, stderr := ReportFailure(printed, stderr, result.error, SuccessProgress);
      code := 1;
    } else {
      code := 0;
    }
  }
}
