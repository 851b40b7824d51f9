# PinterestSlideshow: the worker protocol and the job slot, in Dafny

PinterestSlideshow is a desktop application. Its Electron main process
(`FrontEnd/electron.js`) starts a Python worker that builds a video
slideshow, either from a Pinterest board (`backend/slideshow.py`, with the
client in `backend/pinterest_api.py`) or from a local folder
(`backend/local_slideshow.py`). The two sides talk through a line protocol
on the worker's standard output:

- `PROGRESS:<n>` carries a percentage;
- `STATUS:<text>` carries a message;
- `OUTPUT:<path>` names the finished video;
- `ERROR:<text>`, on standard error, carries a failure.

The main process keeps the running worker in a single global slot,
`pythonProcess`. It forwards progress and status to the renderer and
settles a promise when the worker exits.

This project models that core and proves properties of it:

| file | module | models |
|---|---|---|
| `wrappers.dfy` | `Wrappers` | `Option` and `Result` |
| `strings.dfy` | `Strings` | prefix and suffix tests, `split` on one character, decimal rendering |
| `js_builtins.dfy` | `JsBuiltins` | `String.prototype.trim`, the global `parseInt` with no radix, `toString` |
| `protocol.dfy` | `Protocol` | the pure logic of the main process: the interpreter choice, the classification of one stdout chunk into events, the settlement on `close` and `error` |
| `supervisor.dfy` | `Supervisor` | the stateful side of the main process. `Job` is one launch and holds its accumulated output and error text, the events it sent, the signals it received and its settlement. `Orchestrator` is the `pythonProcess` slot, written by launch, close, error, cancel and window close. |
| `worker_output.dfy` | `WorkerOutput` | what the Python workers print, and how the main process reads each printed line back |
| `pinterest_api.dfy` | `PinterestApi` | `extract_board_id` (the pattern `/([^/]+)/([^/]+)/?$`), the selection count, cache file names, and the `download_pins` loop |
| `remote_worker.dfy` | `RemoteWorker` | the `main` of `slideshow.py`: the print calls of each stage, the error report and the exit code |
| `local_worker.dfy` | `LocalWorker` | the image filter, the image-count rule, the prefix of the shuffled list, and the print calls of the `main` of `local_slideshow.py` |

The end-to-end results link the two sides.

- `WorkerOutput.ReadBack`: for any sequence of well-formed print calls, the main process reads back exactly the progress values, in order, and the first `OUTPUT:` path. `WorkerOutput.WindowsReadBack` gives the same result when every line ends with `\r\n`, as Python's text streams write it on Windows.
- `Supervisor.StreamThenClose`: however the pipes cut the output into chunks, the job settles on the whole text of each stream.
- `RemoteWorker.Run` and `LocalWorker.Run`: each worker either reports its whole increasing progress sequence and then the video, or a strict prefix of that sequence, an `Error:` status, an `ERROR:` line on standard error, no video, and exit code 1.
- `WorkerOutput.RunResolves`: a run that exits with code 0 settles the promise with the video's path.

The model follows what the code does:

- **No carry-over buffer.** Each stdout chunk is split and classified on its own, so a line cut by a chunk boundary is read as two lines (`Protocol.ChunkBoundaryTruncatesProgress`). The two readings agree only when chunks end at line breaks (`Protocol.StreamEventsAligned`).
- **No range check on progress.** A `PROGRESS:` line sends whatever `parseInt` gives, NaN and values above 100 included.
- **The first `OUTPUT:` line wins.**
- **A second launch is not refused.** It overwrites the slot. When the first job's process closes, it clears the slot even though the slot now holds the newer job, and that job can then no longer be cancelled (`Supervisor.StaleCloseOrphansNewerJob`).
- **Cancel does not settle the job.** It sends SIGTERM and empties the slot at once, so a second cancel reports `No process running`. The job settles only when its process closes. A null exit code rejects, with the generic message when nothing was written to standard error (`Supervisor.CancelThenClose`).

Inputs that are outside the model's reach appear as parameters:

- the platform, the application root and whether the virtual environment exists;
- the exit code, as `Option<int>` (Node gives `null` after a signal);
- the chunks the pipes deliver;
- the Pinterest fetch and the image downloads, as functions from a board id or URL to a result;
- `random.choices`, as a draw function;
- `random.shuffle`, as a given permutation;
- the file system, as the folder listing and whether paths exist;
- the video generator, as a function giving its printed lines, its standard error and its result.

## Model

| member | source | states |
|---|---|---|
| JsBuiltins.TrimStart | FrontEnd/electron.js:101 | the result is a suffix of the input, everything removed is white space, and the result does not start with white space |
| JsBuiltins.TrimEnd | FrontEnd/electron.js:101 | the result is a prefix of the input, everything removed is white space, and the result does not end with white space |
| JsBuiltins.Trim | FrontEnd/electron.js:101 | the result is the slice of the input between its leading and its trailing white space: everything before and after it is white space, and neither end of the result is |
| JsBuiltins.TrimStartAppend | FrontEnd/electron.js:101 | a character appended to text is kept after the leading white space is skipped, unless the text was all white space |
| JsBuiltins.TrimAppendWhiteSpace | FrontEnd/electron.js:101 | a trailing white-space character, such as a carriage return, does not change the trimmed text |
| JsBuiltins.TrimUnchanged | FrontEnd/electron.js:101 | text whose two ends are not white space is left exactly as it is |
| JsBuiltins.TrimIdempotent | FrontEnd/electron.js:122 | trimming a second time changes nothing |
| JsBuiltins.DigitPrefix | FrontEnd/electron.js:98 | `parseInt` reads the longest prefix made of digits of the radix; the character after it, if any, is not such a digit |
| JsBuiltins.ParseMagnitudeOfDigits | FrontEnd/electron.js:98 | digits followed by a non-alphanumeric character or by nothing read as their decimal value |
| JsBuiltins.ParseIntUnsigned | FrontEnd/electron.js:98 | text that starts with neither white space nor a sign gives its magnitude, or NaN when there is none |
| JsBuiltins.ParseIntMinus | FrontEnd/electron.js:98 | a leading `-` negates the magnitude that follows it |
| JsBuiltins.ParseIntOfDigits | FrontEnd/electron.js:98 | unsigned digits followed by a non-alphanumeric tail give their decimal value |
| JsBuiltins.ParseIntOfNegativeDigits | FrontEnd/electron.js:98 | `-`, then digits, then a non-alphanumeric tail give the negated decimal value |
| JsBuiltins.ParseIntOfNat | FrontEnd/electron.js:98 | the decimal rendering of a natural number, before a non-alphanumeric tail, parses back to the number |
| JsBuiltins.ParseIntOfNegativeNat | FrontEnd/electron.js:98 | `-` and the decimal rendering of a natural number parse back to its negation |
| JsBuiltins.ParseIntOfDecimal | FrontEnd/electron.js:98 | the decimal rendering of any integer, before a non-alphanumeric tail, parses back to that integer |
| JsBuiltins.DigitPrefixOfDigits | FrontEnd/electron.js:98 | digits followed by a non-digit have exactly those digits as their decimal digit prefix |
| JsBuiltins.DigitPrefixAppend | FrontEnd/electron.js:98 | a character that is not a digit of the radix, appended, leaves the digit prefix as it was |
| JsBuiltins.ParseMagnitudeAppend | FrontEnd/electron.js:98 | a character that is neither a letter nor a digit, appended, leaves the magnitude read as it was, with or without a `0x` prefix |
| JsBuiltins.WhiteSpaceIsNoDigit | FrontEnd/electron.js:98 | no white-space character is a digit or a letter of any radix |
| JsBuiltins.ParseSignedAppend | FrontEnd/electron.js:98 | after the leading white space, a trailing white-space character does not change the signed number read |
| JsBuiltins.ParseIntAppendWhiteSpace | FrontEnd/electron.js:98 | a trailing white-space character, such as a carriage return, does not change what `parseInt` reads |
| JsBuiltins.ToString | FrontEnd/electron.js:75-80 | `toString` throws exactly on null. A string converts to itself, an integer to its decimal rendering, NaN to `NaN`, and a number with a fractional part to its rendering |
| Strings.SplitOn | FrontEnd/electron.js:95 | the pieces of a split contain no separator, there is at least one piece, and joining the pieces with the separator gives back the text |
| Strings.SplitOnFree | FrontEnd/electron.js:95 | text without the separator splits into itself alone |
| Strings.SplitOnAppend | FrontEnd/electron.js:95 | splitting `a + sep + b` gives the pieces of `a` followed by the pieces of `b` |
| Strings.SplitOfJoin | FrontEnd/electron.js:95 | joining separator-free pieces and splitting again gives the same pieces back |
| Strings.FirstPiece | FrontEnd/electron.js:98 | the first piece is the longest separator-free prefix: the whole text, or followed by a separator |
| Strings.FirstPieceAppend | FrontEnd/electron.js:98 | a character other than the separator, appended, extends the first piece only when the text held no separator |
| Strings.StartsWithAppend | FrontEnd/electron.js:97-99 | appending a character that differs from a prefix's last character does not change whether the text starts with that prefix |
| Strings.SecondPiece | FrontEnd/electron.js:98 | after a separator-free head and one separator, the second piece is the first piece of the rest |
| Strings.LastPiece | backend/pinterest_api.py:76 | the last piece is the longest separator-free suffix: the whole text, or preceded by a separator |
| Strings.NatToDecimal | backend/slideshow.py:14 | the rendering of a natural number is a non-empty run of digits, with a leading `0` only for zero |
| Strings.DecimalRoundTrip | backend/slideshow.py:14 | the decimal value of a number's rendering is the number |
| Strings.NatToDecimalInjective | backend/pinterest_api.py:77 | different numbers never render alike |
| Protocol.PythonExecutable | FrontEnd/electron.js:60-69 | the result is `python3` exactly when there is no virtual environment. Otherwise it lies inside the environment and ends with `\Scripts\python.exe` on win32 and with `/bin/python` elsewhere |
| Protocol.ClassifyLine | FrontEnd/electron.js:97-103 | one line sends at most one event |
| Protocol.ProgressField | FrontEnd/electron.js:98 | `line.split(':')[1]` of a `PROGRESS:` line is the text after the prefix, up to the next `:` |
| Protocol.ClassifyLineMeaning | FrontEnd/electron.js:97-103 | a `PROGRESS:` line sends `parseInt` of its second field, with no range check; a `STATUS:` line sends its text after seven characters, trimmed; every other line sends nothing |
| Protocol.LinesEventsAppend | FrontEnd/electron.js:96-104 | the events of consecutive runs of lines are the events of each run, in order |
| Protocol.LinesEventsStep | FrontEnd/electron.js:96-104 | one more line appends exactly its own events |
| Protocol.OneLineChunk | FrontEnd/electron.js:95-104 | a chunk that is one line and a line break sends that line's events |
| Protocol.ChunkEventsAppend | FrontEnd/electron.js:95-104 | text that ends at a line break is classified independently of the text that follows it |
| Protocol.StreamEventsAligned | FrontEnd/electron.js:90-105 | when every chunk but the last ends at a line break, the stream sends exactly the events of the whole text |
| Protocol.ProgressLineValue | FrontEnd/electron.js:98 | `PROGRESS:` and the decimal rendering of an integer send that integer |
| Protocol.ProgressChunk | FrontEnd/electron.js:95-99 | a printed progress line, alone in its chunk, sends exactly its number |
| Protocol.UnterminatedProgressChunk | FrontEnd/electron.js:95-99 | a progress line cut before its line break still sends its number |
| Protocol.DigitChunk | FrontEnd/electron.js:95-104 | a chunk holding a lone digit and a line break sends nothing |
| Protocol.ChunkBoundaryTruncatesProgress | FrontEnd/electron.js:90-105 | with no carry-over buffer, a progress line cut before its last digit sends the number without that digit, not the number printed |
| Protocol.FindOutputLine | FrontEnd/electron.js:120 | the index found starts with `OUTPUT:` and no earlier line does; when there is no index, no line starts with it |
| Protocol.CloseResult | FrontEnd/electron.js:114-137 | the promise resolves exactly on exit code 0, with the success message and the first `OUTPUT:` path (the default path when there is none). Any other code, null included, rejects with that code. The error is the standard error text when that text is not empty, and `Python process failed` when it is |
| Protocol.SpawnErrorResult | FrontEnd/electron.js:139-145 | a spawn error rejects with `Failed to start Python process: ` followed by the error's message |
| Protocol.FindOutputLineAppend | FrontEnd/electron.js:120 | the first match in two runs of lines is the first run's match, or else the second run's match shifted by the first run's length |
| Protocol.OutputPathAppend | FrontEnd/electron.js:119-123 | after text that ends at a line break, appending more text never changes a path already named; otherwise the path comes from what was appended |
| Protocol.OneLineOutputPath | FrontEnd/electron.js:119-123 | a one-line text names that line's path, if the line is an `OUTPUT:` line |
| Protocol.ConcatAppend | FrontEnd/electron.js:92 | the text of a stream read in two runs of chunks is the text of each run, in order |
| Protocol.StreamStep | FrontEnd/electron.js:90-111 | one more chunk appends exactly its text to the accumulated text and its events to those sent |
| Protocol.ProgressFieldCarriageReturn | FrontEnd/electron.js:98 | a carriage return after a progress field does not change the number `parseInt` reads from it |
| Protocol.ClassifyLineCarriageReturn | FrontEnd/electron.js:95-103 | a line ending in a carriage return, as each line of a Windows `print` does once split on line feeds, sends the same events as the line without it |
| Protocol.ProgressCarriageReturn | FrontEnd/electron.js:97-99 | for a `PROGRESS:` line, a trailing carriage return does not change the event sent |
| Protocol.StatusCarriageReturn | FrontEnd/electron.js:100-102 | for a `STATUS:` line, a trailing carriage return does not change the event sent |
| Protocol.LineOutputPathCarriageReturn | FrontEnd/electron.js:119-122 | a line ending in a carriage return names the same video path as the line without it |
| Supervisor.BuildArgs | FrontEnd/electron.js:72-81 | building fails exactly when an option that is converted is null. Otherwise the vector is the script, `--board-url`, `--duration` and `--recency-weight` with their values (7 entries), followed by `--num-images` and its value unless the count is the string `auto` (9 entries) |
| Supervisor.Job.constructor | FrontEnd/electron.js:84-87 | a new job has no output, no errors, no events, no signals and no settlement |
| Supervisor.Job.OnStdout | FrontEnd/electron.js:90-105 | the chunk is appended to the output text, and exactly the chunk's events are appended to those sent |
| Supervisor.Job.OnLines | FrontEnd/electron.js:96-104 | the loop over the lines sends each line's events in line order, and changes nothing else |
| Supervisor.Job.OnLine | FrontEnd/electron.js:97-103 | the callback for one line sends that line's event, if there is one, and changes nothing else |
| Supervisor.Job.OnStderr | FrontEnd/electron.js:108-111 | the chunk is appended to the error text, and nothing else changes |
| Supervisor.Job.Settle | FrontEnd/electron.js:125-135 | a promise settles once; later resolutions and rejections leave it as it is |
| Supervisor.Job.Kill | FrontEnd/electron.js:152 | the signal is recorded as delivered, and nothing else changes |
| Supervisor.Orchestrator.constructor | FrontEnd/electron.js:7 | the slot starts empty |
| Supervisor.Orchestrator.GenerateSlideshow | FrontEnd/electron.js:52-84 | a launch starts the chosen interpreter with the argument vector and the default video path, and overwrites the slot with no conflict check. If an option's conversion throws, the promise rejects and the slot is untouched |
| Supervisor.Orchestrator.OnClose | FrontEnd/electron.js:114-137 | a close empties the slot, whichever job the slot holds, and settles the job on its exit code |
| Supervisor.Orchestrator.OnError | FrontEnd/electron.js:139-145 | a spawn error empties the slot and rejects the job with the spawn failure message |
| Supervisor.Orchestrator.Cancel | FrontEnd/electron.js:150-157 | with a job in the slot: SIGTERM is sent to it, the slot is emptied and the reply is success, and the job is not settled. With an empty slot the reply is `No process running` |
| Supervisor.Orchestrator.OnWindowClosed | FrontEnd/electron.js:29-34 | closing the window kills the job in the slot, if any, with the default signal. The slot, and the job's settlement, output text, error text and sent events, stay as they were |
| Supervisor.CancelTwice | FrontEnd/electron.js:150-157 | for any host and any options that launch, the first cancel succeeds and sends one SIGTERM; the second finds nothing to cancel |
| Supervisor.StaleCloseOrphansNewerJob | FrontEnd/electron.js:84-115 | for any host, options and exit code, when the first job closes after a second launch, the slot is emptied. The second job is left running, unsignalled and unsettled, and cannot be cancelled |
| Supervisor.CancelThenClose | FrontEnd/electron.js:114-157 | for any host and any options that launch, a cancelled job whose process then closes with a null code rejects with the generic failure message |
| Supervisor.StreamThenClose | FrontEnd/electron.js:84-137 | a launched job whose process writes its two streams in chunks, cut anywhere, and then closes, has sent the events of every chunk in order. Its promise settles as `CloseResult` of the whole text of each stream, so the settlement does not depend on where the chunks were cut |
| WorkerOutput.PrintlnAppends | backend/slideshow.py:12-18 | a printed one-line message, after output that ends at a line break, adds exactly that line's events, and names a video only if nothing before it did |
| WorkerOutput.ProgressLineNamesNoVideo | backend/slideshow.py:12-14 | a progress line never names a video |
| WorkerOutput.StatusLineEvents | backend/slideshow.py:16-18 | a status line reads back as its message, trimmed |
| WorkerOutput.StatusLineNamesNoVideo | backend/slideshow.py:16-18 | a status line never names a video |
| WorkerOutput.TrimmedStatusRoundTrip | backend/slideshow.py:16-18 | a message whose ends are not white space reads back exactly |
| WorkerOutput.OutputLineEvents | backend/slideshow.py:75 | the output line sends no event |
| WorkerOutput.OutputLineNamesPath | backend/slideshow.py:75 | the output line names its path, trimmed |
| WorkerOutput.EmitStatus | backend/slideshow.py:16-18 | printing a one-line status adds no progress value and leaves the named video as it was |
| WorkerOutput.EmitProgress | backend/slideshow.py:12-14 | printing progress adds exactly its number to the values read back, and leaves the named video as it was |
| WorkerOutput.EmitOutput | backend/slideshow.py:75 | printing the output line adds no progress value, and names its path unless an earlier line already named one |
| WorkerOutput.EmitPlain | backend/local_slideshow.py:28-29 | a plain debug print adds no progress value and names no video |
| WorkerOutput.Announce | backend/slideshow.py:32-33 | a status print followed by a progress print adds exactly that progress value, and is printable exactly when the status is one line |
| WorkerOutput.Conclude | backend/slideshow.py:71-75 | the end of a successful run adds 90 and 100, names the video unless something earlier did, and is printable exactly when the status and the path are one line each |
| WorkerOutput.PlainsAddNothing | backend/slideshow.py:66-70 | the generator's own prints add no progress value and name no video |
| WorkerOutput.ReadBack | FrontEnd/electron.js:90-123 | for every sequence of printable print calls, the main process reads back exactly the progress values, in order, and the first output path |
| WorkerOutput.PrintableSingleLine | backend/slideshow.py:12-18 | a printable print call writes one line, also with a carriage return after it |
| WorkerOutput.WindowsReadBack | FrontEnd/electron.js:90-123 | on Windows, where each printed line ends with a carriage return and a line feed, the main process reads back the same events and the same video path as elsewhere: the progress values in order and the first output path |
| WorkerOutput.RunResolves | FrontEnd/electron.js:117-129 | a printable run that exits with 0 resolves with the first output print's path, trimmed |
| WorkerOutput.ReportedReadBack | backend/slideshow.py:30-82 | a run that succeeded is read back as all of its progress values and its video. A run that failed is read back as a strict prefix of those values and no video |
| WorkerOutput.Render | backend/slideshow.py:65-75 | rendering keeps what was printed before, and returns the generator's result and error text. On success it adds 90 and 100 and ends with the output line naming the video |
| WorkerOutput.ReportFailure | backend/slideshow.py:79-82 | the except block appends the `Error:` status and the `ERROR:` line, and leaves the progress values and the named video as they were |
| RemoteWorker.FoundStatus | backend/slideshow.py:48 | the status naming the pin count is one line |
| RemoteWorker.SuccessProgressRises | backend/slideshow.py:33-74 | the progress values of a successful run, 10, 20, 40, 60, 90 and 100, rise strictly and stay within 0 to 100 |
| RemoteWorker.FetchStage | backend/slideshow.py:42-49 | the fetch receives the extracted board id; the stage reports 20, and 40 as well when the fetch succeeds; nothing names a video |
| RemoteWorker.DownloadStage | backend/slideshow.py:52-58 | the paths are those `download_pins` returns; 60 is reported only when every download succeeds |
| RemoteWorker.CreateStage | backend/slideshow.py:60-77 | after the generator, a success reports 90 and 100 and ends with the output line; a failure names no video |
| RemoteWorker.PinsStage | backend/slideshow.py:52-77 | once the pins are fetched, the run either completes the full progress sequence and names the video, or stops short of that sequence with no video |
| RemoteWorker.Pipeline | backend/slideshow.py:39-77 | the result is the outcome of the fetch, the downloads and the generator, which is the run's outcome whenever the token is present, and the prints report it |
| RemoteWorker.Attempt | backend/slideshow.py:30-77 | the try block starts with the connecting status and 10. A missing token ends it there with the token error. Its prints report exactly its outcome |
| RemoteWorker.Run | backend/slideshow.py:30-82 | the exit code is 0 exactly when the run succeeds. A success prints the full progress sequence and then the video. A failure prints a strict prefix of that sequence, ends with the `Error:` status, writes the `ERROR:` line last on standard error, and names no video |
| PinterestApi.MatchAt | backend/pinterest_api.py:20 | a match anchored at a `/` gives two non-empty groups without `/` |
| PinterestApi.Search | backend/pinterest_api.py:20 | a match found by the search gives two non-empty groups without `/` |
| PinterestApi.ExtractBoardId | backend/pinterest_api.py:16-23 | input that does not start with `http`, or that the pattern does not match, is returned unchanged |
| PinterestApi.MatchAtShape | backend/pinterest_api.py:20 | a match at a position means the text ends there with `/g1/g2` and then nothing, a `/`, or a `/` and a final line break |
| PinterestApi.SearchShape | backend/pinterest_api.py:20-22 | whatever the search finds are the last two non-empty `/`-free segments of the text |
| PinterestApi.NoEarlierMatch | backend/pinterest_api.py:20 | no `/` before the last two segments starts a match |
| PinterestApi.SearchSkips | backend/pinterest_api.py:20 | the search passes over positions where the pattern cannot match |
| PinterestApi.MatchAtSegments | backend/pinterest_api.py:20 | the pattern matches at the `/` before the last two segments and gives those segments |
| PinterestApi.SearchFinds | backend/pinterest_api.py:20-22 | conversely, text that ends with `/g1/g2` and at most one `/` is matched to exactly `g1` and `g2`. The one exception is a second segment that is a lone line break |
| PinterestApi.OneSlashNoMatch | backend/pinterest_api.py:20-21 | text with at most one `/` never matches |
| PinterestApi.ExtractedHasOneSlash | backend/pinterest_api.py:22 | an extracted board id holds exactly one `/`, between its two groups |
| PinterestApi.ExtractBoardIdIdempotent | backend/pinterest_api.py:16-23 | extracting the board id from an extracted id changes nothing |
| PinterestApi.SelectionCount | backend/pinterest_api.py:57-61 | the count never exceeds the number of pins. It is `min(len(pins), 20)` with no request, and the request when it lies between 0 and that number. A request of 0 stays 0, and a negative request draws nothing |
| PinterestApi.AfterLastDotMeaning | backend/pinterest_api.py:76 | `split('.')[-1]` is the suffix after the last `.`, or the whole URL when it has no `.` |
| PinterestApi.ExtensionMeaning | backend/pinterest_api.py:76 | the extension is the text after the URL's last `.` up to its first `?`, and holds neither `.` nor `?` |
| PinterestApi.CachePathInjective | backend/pinterest_api.py:77 | two cache paths are equal only for the same index and extension |
| PinterestApi.Selected | backend/pinterest_api.py:61 | exactly `k` pins are drawn, each one of the board's pins |
| PinterestApi.ImagePaths | backend/pinterest_api.py:77-82 | there is one cache path per drawn pin |
| PinterestApi.FirstFailure | backend/pinterest_api.py:68-74 | the failure found is that of the first drawn pin whose request fails, and every pin before it downloaded. With no failure found, every download succeeded |
| PinterestApi.DownloadResultMeaning | backend/pinterest_api.py:43-84 | `download_pins` succeeds exactly when there are pins and every drawn image downloads. It then returns as many paths as pins drawn, all distinct |
| PinterestApi.DownloadPins | backend/pinterest_api.py:43-84 | the loop returns the reference result: the no-pins error, the first download's error, or one cache path per drawn pin in order |
| PinterestApi.ImagePathsDistinct | backend/pinterest_api.py:77-82 | the cache paths of different downloads differ |
| LocalWorker.Name | backend/local_slideshow.py:36 | `Path.name` is the text after the path's last `/` |
| LocalWorker.Suffix | backend/local_slideshow.py:36 | a non-empty suffix ends the name, starts with its only `.`, and is neither the whole name nor just a `.` |
| LocalWorker.SuffixAt | backend/local_slideshow.py:36 | a `.` inside the name, with no `.` after it and not as the last character, starts the suffix |
| LocalWorker.HiddenNameHasNoSuffix | backend/local_slideshow.py:36 | a name whose only `.` is its first character has no suffix |
| LocalWorker.NameOfChild | backend/local_slideshow.py:35 | an entry listed in a directory has its own name as `Path.name` |
| LocalWorker.ExtensionShape | backend/local_slideshow.py:33 | every image extension, in any letter case, is a `.` and at least three characters, with no further `.` and no `/` |
| LocalWorker.ImageKept | backend/local_slideshow.py:33-37 | an entry named by a non-empty stem and an image extension, in any letter case, is kept |
| LocalWorker.HiddenNotImage | backend/local_slideshow.py:33-37 | a hidden entry such as `.jpg` is not kept |
| LocalWorker.Filter | backend/local_slideshow.py:34-37 | the comprehension keeps no more elements than it is given |
| LocalWorker.FilterMembers | backend/local_slideshow.py:34-37 | an entry is kept exactly when it is listed and passes the test |
| LocalWorker.FilterAppend | backend/local_slideshow.py:34-37 | the comprehension keeps the listing order |
| LocalWorker.NumImagesToUse | backend/local_slideshow.py:49-52 | a requested count that is given and not 0 is used as it is. Otherwise the count is `duration // 3`, rounded toward minus infinity |
| LocalWorker.SelectionMeaning | backend/local_slideshow.py:55-56 | the images used are a prefix of the shuffled list and a sub-multiset of the images found, with as many as asked for when that many were found |
| LocalWorker.EscapeChar | backend/local_slideshow.py:41 | an escaped character is one or two characters long and holds no line break |
| LocalWorker.Escape | backend/local_slideshow.py:41 | escaped text holds no line break |
| LocalWorker.EscapeCharRoundTrip | backend/local_slideshow.py:41 | an escaped character reads back as itself, whatever follows it |
| LocalWorker.EscapeRoundTrip | backend/local_slideshow.py:41 | escaped text reads back as the original |
| LocalWorker.StrRepr | backend/local_slideshow.py:41 | `repr` of a string holds no line break |
| LocalWorker.StrReprRoundTrip | backend/local_slideshow.py:41 | the text between the quotes of a `repr` reads back as the string |
| LocalWorker.ListRepr | backend/local_slideshow.py:41 | the rendering of a list of file names is one line, so the debug print stays one line |
| LocalWorker.LocalProgressRises | backend/local_slideshow.py:25-79 | the progress values of a successful run, 10, 30, 50, 90 and 100, rise strictly and stay within 0 to 100 |
| LocalWorker.PrefixedPlain | backend/local_slideshow.py:28-29 | a debug print is read as plain text, and is one line exactly when what follows its prefix is |
| LocalWorker.ProbeStage | backend/local_slideshow.py:24-29 | the run starts with the loading status, 10 and the two debug lines. It is printable exactly when the folder name is one line |
| LocalWorker.CountStage | backend/local_slideshow.py:39 | the debug line with the number of image files is appended and changes neither progress nor the named video |
| LocalWorker.ShowStage | backend/local_slideshow.py:40-46 | with images found, the first three are shown and then their number and 30 are reported |
| LocalWorker.ScanStage | backend/local_slideshow.py:33-46 | the images are the filtered entries, or the no-images error; 30 is reported only when some were found |
| LocalWorker.SelectStage | backend/local_slideshow.py:49-59 | the selection is the prefix of the shuffled list given by the count rule; its size and then 50 are reported |
| LocalWorker.ClearStage | backend/local_slideshow.py:62-68 | the creating status is printed, and then the deletion line exactly when an old video exists |
| LocalWorker.CreateStage | backend/local_slideshow.py:62-80 | after the generator, a success reports 90 and 100 and ends with the output line; a failure names no video |
| LocalWorker.ImagesStage | backend/local_slideshow.py:49-80 | with images found and shuffled, the generator receives a prefix of the shuffled list that is a sub-multiset of the images found, as many as asked for when that many were found. The run either completes the full progress sequence and names the video, or stops short of it with no video |
| LocalWorker.Pipeline | backend/local_slideshow.py:33-80 | with the folder present and the shuffle a permutation of the images found, the result is the defined outcome, the images used are drawn from the images found, and the prints report the result |
| LocalWorker.Attempt | backend/local_slideshow.py:23-82 | the try block starts with the loading status and 10, and its prints report exactly its outcome: the folder error, the no-images error, or the generator's result |
| LocalWorker.Run | backend/local_slideshow.py:14-87 | the return value is 0 exactly when the run succeeds. A success prints the full progress sequence and then the video. A failure prints a strict prefix of that sequence, ends with the `Error:` status, writes the `ERROR:` line last on standard error, and names no video |

## Left out

- Window creation, menus, dialogs, `shell.openPath` and the `check-python-setup` handler (`FrontEnd/electron.js:9-49`, `159-188`) are user-interface I/O. The model takes the platform, the application root and whether the virtual environment exists as inputs.
- Process spawning, pipes, signals and IPC `send` are not modelled as real I/O. A signal is recorded on the job, a sent event is appended to the job's event sequence, and the exit code is an input.
- `console.error` of standard error chunks is omitted because it is logging only.
- `path.join` is modelled for the three fixed segments used, with `/` or `\` as separator. It does not normalise `..` or repeated separators.
- Supervisor.Job.OnStdout and Supervisor.Job.OnStderr: a chunk is a string, so how Node decodes bytes (multi-byte UTF-8 characters split across chunks) is not modelled.
- JsBuiltins.ParseInt: JavaScript numbers are modelled as NaN or an unbounded integer. `-0` is read as 0, and the loss of precision above 2^53 is not modelled.
- JsBuiltins.ToString: a number with a fractional part, such as a recency weight of 0.7, is carried with its rendering. ECMAScript's shortest round-trip rendering of a double is not computed. An integer of magnitude 10^21 or more is written by JavaScript in exponent form (`1e+21`); the model writes all its digits instead.
- Supervisor.BuildArgs: a fractional duration, weight or count enters the argument vector as its given rendering, and an integer of magnitude 10^21 or more as its full digits rather than JavaScript's exponent form, for the reasons above.
- WorkerOutput.ReadBack: the read-back is proved for print calls that each write one line, and the worker theorems assume the same of the generator's own prints (`WorkerOutput.GeneratorQuiet`). The video generator also prints multi-line text, such as a traceback (`backend/video_generator.py:39-41`); lines of a traceback normally start with neither `PROGRESS:` nor `OUTPUT:`, so they would add no progress value and no path, but the model does not prove the read-back for such prints.
- WorkerOutput.ReportFailure: the `ERROR:` line is written with a line feed. On Windows it ends with `\r\n`, and the rejection carries that text as written; only standard output is modelled with Windows line breaks (`WorkerOutput.WindowsTranscript`).
- `fetch_board_pins` (`backend/pinterest_api.py:25-41`) performs network requests with pagination. It is a function parameter from board id to pins or an error message.
- A pin without the nested `media.images.originals.url` field raises KeyError. Pins are modelled by their image URL alone.
- The recency weights of `download_pins` (`backend/pinterest_api.py:49-54`) are floating-point numbers. `random.choices` is a draw function, so which pins are drawn, and how often, is not constrained.
- PinterestApi.DownloadResultMeaning: `random.choices` (`backend/pinterest_api.py:61`) raises ValueError when the weights `1 - recency_weight * i / n` add up to zero or less or are not finite (for example a recency weight of 5 with two pins, or NaN). The model's draw function always draws, so the stated iff holds only for weights that `random.choices` accepts; that exception would end the run like any other, with the `Error:` status.
- PinterestApi.DownloadPins: writing each image to the cache and creating the cache directory are not modelled. Their failures, and the overwriting of earlier files by a later run, are outside the model.
- LocalWorker.SelectionMeaning: `random.shuffle` is a given list with the same elements. Uniformity of the shuffle is not modelled.
- LocalWorker.Name: splits on `/` only, as a POSIX path does. On Windows pathlib also splits on `\`, so an entry given with backslashes (`C:\photos\.jpg`) has a different name there than in the model.
- LocalWorker.Scanned: listing the folder (`iterdir`, `backend/local_slideshow.py:35`) is taken to succeed once the path exists. A path that exists but cannot be listed (a regular file, a folder without permission) raises, and the run reports it through the handler at `backend/local_slideshow.py:84-87` like any other exception; the model does not represent that failure.
- LocalWorker.IsImage: `str.lower` is modelled for ASCII letters only. Non-ASCII case mappings do not change whether a name ends with one of the six ASCII extensions.
- LocalWorker.StrRepr: `repr` escapes `\`, the quote, line feed, carriage return and tab. Other control and non-printable characters, which Python writes as `\x..` or `\u....` escapes, are kept as they are.
- `argparse` and the reading of `.env` are omitted. Arguments are typed inputs, and the token is an `Option<string>`.
- `Path(...)` values are printed as the text given; pathlib's normalisation of redundant separators and `.` components is not modelled.
- `mkdir` and `unlink` of the output path are omitted; the model keeps only whether the old video exists.
- The video generator (`backend/video_generator.py`) is not part of this model. It is a function parameter that gives its printed lines, its standard-error text, and its path or exception message.
- `backend/local_slideshow.py` has no `__main__` guard, and the main process never starts it. `LocalWorker.Run` models its `main()` as written: the return value would be the exit code if it were called.
- `FrontEnd/src/app.jsx` sends `numImages: null` for the automatic count, while `FrontEnd/electron.js:79` tests for the string `'auto'`. The model takes the options as the main process receives them: a null count makes `toString` throw before anything is spawned (`Supervisor.BuildArgs`). The renderer is not part of this model.
- `FrontEnd/preload.js` is not part of this model; it only forwards IPC calls.
