/**
 * The local-folder worker (backend/local_slideshow.py): the image filter on
 * file suffixes, the image-count rule, the selection of a prefix of the
 * shuffled list, and the print calls of its `main`, debug lines included.
 */
module LocalWorker {
  import opened Wrappers
  import opened Strings
  import opened JsBuiltins
  import opened WorkerOutput

  // ---------------------------------------------------------------------
  // Which directory entries are images (lines 33-37)
  // ---------------------------------------------------------------------

  const ImageExtensions: set<string> := {".jpg", ".jpeg", ".png", ".gif", ".bmp", ".webp"}

  /** `Path.name`: the last component of a path. */
  function Name(path: string): (name: string)
    ensures EndsWith(path, name) && '/' !in name
    ensures |name| == |path| || path[|path| - |name| - 1] == '/'
  {
    LastPiece(path, '/');
    var parts := SplitOn(path, '/');
    parts[|parts| - 1]
  }

  /**
   * `Path.suffix`: from the name's last dot on, provided that dot is neither
   * the name's first character nor its last; otherwise empty.
   */
  function Suffix(name: string): (suffix: string)
    ensures suffix != "" ==>
      && EndsWith(name, suffix) && 2 <= |suffix| < |name|
      && suffix[0] == '.' && '.' !in suffix[1..]
  {
    var i := LastIndexOf(name, '.');
    if 0 < i < |name| - 1 then
      assert name[i..][1..] == name[i + 1..];
      name[i..]
    else ""
  }

  /** A dot strictly inside the name with no dot after it starts the suffix. */
  lemma {:induction false} SuffixAt(name: string, i: nat)
    requires 0 < i < |name| - 1 && name[i] == '.' && '.' !in name[i + 1..]
    ensures Suffix(name) == name[i..]
  {
  }

  /** A name whose only dot is its first character (a hidden file such as `.jpg`) has no suffix. */
  lemma {:induction false} HiddenNameHasNoSuffix(rest: string)
    requires '.' !in rest
    ensures Suffix("." + rest) == ""
  {
  }

  /** `str.lower` on the characters that matter here: ASCII capitals become small letters. */
  function LowerChar(c: char): char {
    if 'A' <= c <= 'Z' then (c as int - 'A' as int + 'a' as int) as char else c
  }

  function AsciiLower(s: string): (r: string)
    ensures |r| == |s| && forall i :: 0 <= i < |s| ==> r[i] == LowerChar(s[i])
  {
    seq(|s|, i requires 0 <= i < |s| => LowerChar(s[i]))
  }

  /** The filter of line 36: the lowercased suffix of the entry's name is an image extension. */
  predicate IsImage(path: string) {
    AsciiLower(Suffix(Name(path))) in ImageExtensions
  }

  /** `Path.name` of an entry listed in a directory is the entry's own name. */
  lemma {:induction false} NameOfChild(dir: string, name: string)
    requires '/' !in name
    ensures Name(dir + "/" + name) == name
  {
    assert dir + "/" + name == dir + ['/'] + name;
    SplitOnAppend(dir, name, '/');
    SplitOnFree(name, '/');
  }

  /** Every image extension, in any letter case, is a dot followed by letters. */
  lemma {:induction false} ExtensionShape(ext: string)
    requires AsciiLower(ext) in ImageExtensions
    ensures |ext| >= 4 && ext[0] == '.' && '.' !in ext[1..] && '/' !in ext
  {
    var e := AsciiLower(ext);
    assert |e| >= 4 && e[0] == '.' && '.' !in e[1..] && '/' !in e;
    forall k | 0 <= k < |ext|
      ensures (ext[k] == '.' ==> e[k] == '.') && (ext[k] == '/' ==> e[k] == '/')
    {
    }
  }

  /** An entry named by a non-empty stem and an image extension, in any letter case, is an image. */
  lemma {:induction false} ImageKept(dir: string, stem: string, ext: string)
    requires stem != "" && '/' !in stem && AsciiLower(ext) in ImageExtensions
    ensures IsImage(dir + "/" + (stem + ext))
  {
    ExtensionShape(ext);
    var name := stem + ext;
    NameOfChild(dir, name);
    assert name[|stem|..] == ext && name[|stem| + 1..] == ext[1..];
    SuffixAt(name, |stem|);
  }

  /** A hidden entry such as `photos/.jpg` is not an image. */
  lemma {:induction false} HiddenNotImage(dir: string, rest: string)
    requires '/' !in rest && '.' !in rest
    ensures !IsImage(dir + "/" + ("." + rest))
  {
    NameOfChild(dir, "." + rest);
    HiddenNameHasNoSuffix(rest);
  }

  /** A list comprehension with a condition: the elements that pass, in order. */
  function Filter<T>(s: seq<T>, keep: T -> bool): (kept: seq<T>)
    ensures |kept| <= |s|
  {
    if s == [] then []
    else Filter(s[..|s| - 1], keep) + if keep(s[|s| - 1]) then [s[|s| - 1]] else []
  }

  /** An element is kept exactly when it is there and passes. */
  lemma {:induction false} FilterMembers<T>(s: seq<T>, keep: T -> bool, x: T)
    ensures x in Filter(s, keep) <==> x in s && keep(x)
  {
    if s != [] {
      var init, last := s[..|s| - 1], s[|s| - 1];
      FilterMembers(init, keep, x);
      assert s == init + [last];
    }
  }

  /** Filtering keeps the order: what passes of two lists is what passes of each, in turn. */
  lemma {:induction false} FilterAppend<T>(a: seq<T>, b: seq<T>, keep: T -> bool)
    ensures Filter(a + b, keep) == Filter(a, keep) + Filter(b, keep)
    decreases |b|
  {
    if b == [] {
      assert a + b == a;
    } else {
      var init := b[..|b| - 1];
      FilterAppend(a, init, keep);
      assert (a + b)[..|a + b| - 1] == a + init && (a + b)[|a + b| - 1] == b[|b| - 1];
    }
  }

  /** The list comprehension of lines 34-37: the image entries, in listing order. */
  function FilterImages(children: seq<string>): seq<string> {
    Filter(children, IsImage)
  }

  // ---------------------------------------------------------------------
  // How many images, and which (lines 49-56)
  // ---------------------------------------------------------------------

  /**
   * Lines 49-52: the requested number when it is truthy (given and not 0),
   * otherwise one image per three seconds, rounded down as `//` does.
   */
  function NumImagesToUse(numImages: Option<int>, duration: int): (k: int)
    ensures numImages.Some? && numImages.value != 0 ==> k == numImages.value
    ensures numImages.None? || numImages.value == 0 ==> 3 * k <= duration < 3 * k + 3
  {
    if numImages.Some? && numImages.value != 0 then numImages.value else duration / 3
  }

  function Min(a: int, b: int): int { if a < b then a else b }
  function Max(a: int, b: int): int { if a < b then b else a }

  /** Python's `s[:k]`: a negative `k` counts from the end. */
  function PyTake<T>(s: seq<T>, k: int): (r: seq<T>)
    ensures |r| <= |s| && r == s[..|r|]
    ensures |r| == if k >= 0 then Min(k, |s|) else Max(0, |s| + k)
  {
    if k >= 0 then s[..Min(k, |s|)] else s[..Max(0, |s| + k)]
  }

  /**
   * Lines 55-56: whatever order the shuffle chose, the images used are a
   * prefix of it, drawn from the found images without repetition beyond
   * theirs, as many as asked for when that many were found.
   */
  lemma {:induction false} SelectionMeaning(images: seq<string>, shuffled: seq<string>, numImages: Option<int>, duration: int)
    requires multiset(shuffled) == multiset(images)
    ensures var count := NumImagesToUse(numImages, duration);
      var selected := PyTake(shuffled, count);
      && selected == shuffled[..|selected|]
      && multiset(selected) <= multiset(images)
      && (count >= 0 ==> |selected| == Min(count, |images|))
      && (count < 0 ==> |selected| == Max(0, |images| + count))
  {
    var selected := PyTake(shuffled, NumImagesToUse(numImages, duration));
    assert |shuffled| == |images| by {
      assert |multiset(shuffled)| == |shuffled| && |multiset(images)| == |images|;
    }
    assert shuffled == selected + shuffled[|selected|..];
    assert multiset(shuffled) == multiset(selected) + multiset(shuffled[|selected|..]);
  }

  // ---------------------------------------------------------------------
  // Python's repr of a list of strings (line 41)
  // ---------------------------------------------------------------------

  /** One character inside a string literal delimited by `quote`. */
  function EscapeChar(c: char, quote: char): (r: string)
    requires quote == '\'' || quote == '"'
    ensures 1 <= |r| <= 2 && '\n' !in r
  {
    if c == '\\' then "\\\\"
    else if c == quote then ['\\', quote]
    else if c == '\n' then "\\n"
    else if c == '\r' then "\\r"
    else if c == '\t' then "\\t"
    else [c]
  }

  function Escape(s: string, quote: char): (r: string)
    requires quote == '\'' || quote == '"'
    ensures '\n' !in r
  {
    if s == [] then "" else EscapeChar(s[0], quote) + Escape(s[1..], quote)
  }

  /** Reading an escaped text back, as a Python string literal is read. */
  function Unescape(t: string): string {
    if t == [] then ""
    else if t[0] == '\\' && |t| >= 2 then
      [if t[1] == 'n' then '\n' else if t[1] == 'r' then '\r' else if t[1] == 't' then '\t' else t[1]]
      + Unescape(t[2..])
    else [t[0]] + Unescape(t[1..])
  }

  /** An escaped character reads back as itself, whatever follows it. */
  lemma {:induction false} EscapeCharRoundTrip(c: char, quote: char, rest: string)
    requires quote == '\'' || quote == '"'
    ensures Unescape(EscapeChar(c, quote) + rest) == [c] + Unescape(rest)
  {
    var e := EscapeChar(c, quote);
    if |e| == 2 {
      assert (e + rest)[2..] == rest;
    } else {
      assert (e + rest)[1..] == rest;
    }
  }

  lemma {:induction false} EscapeRoundTrip(s: string, quote: char)
    requires quote == '\'' || quote == '"'
    ensures Unescape(Escape(s, quote)) == s
  {
    if s != [] {
      EscapeRoundTrip(s[1..], quote);
      EscapeCharRoundTrip(s[0], quote, Escape(s[1..], quote));
      assert s == [s[0]] + s[1..];
    }
  }

  /** `repr` of a string: single quotes, unless the text holds a single quote and no double quote. */
  function StrRepr(s: string): (r: string)
    ensures '\n' !in r
  {
    var quote := if '\'' in s && '"' !in s then '"' else '\'';
    [quote] + Escape(s, quote) + [quote]
  }

  /** The text between the quotes of a string's `repr` reads back as the string. */
  lemma {:induction false} StrReprRoundTrip(s: string)
    ensures var r := StrRepr(s); |r| >= 2 && Unescape(r[1..|r| - 1]) == s
  {
    var quote := if '\'' in s && '"' !in s then '"' else '\'';
    var r := StrRepr(s);
    assert r[1..|r| - 1] == Escape(s, quote);
    EscapeRoundTrip(s, quote);
  }

  function ReprItems(items: seq<string>): (r: string)
    ensures '\n' !in r
  {
    if items == [] then ""
    else if |items| == 1 then StrRepr(items[0])
    else StrRepr(items[0]) + ", " + ReprItems(items[1..])
  }

  /** `str` of a list of strings, as an f-string renders it. */
  function ListRepr(items: seq<string>): (r: string)
    ensures SingleLine(r)
  {
    "[" + ReprItems(items) + "]"
  }

  // ---------------------------------------------------------------------
  // What the worker prints
  // ---------------------------------------------------------------------

  const Loading: Line := "Loading images from folder..."
  const LookingPrefix: Line := "DEBUG: Looking for images in: "
  const ExistsPrefix: Line := "DEBUG: Path exists: "
  const FoundFilesPrefix: Line := "DEBUG: Found "
  const FilesSuffix: Line := " image files"
  const FirstFewPrefix: Line := "DEBUG: First few files: "
  const FoundPrefix: Line := "Found "
  const ImagesSuffix: Line := " images"
  const UsingPrefix: Line := "Using "
  const EachSuffix: Line := " images (3 seconds each)..."
  const DeletingPrefix: Line := "Deleting old video: "
  const FolderNotFoundPrefix: Line := "Folder not found: "
  const NoImages: Line := "No images found in folder"

  /** The progress values of a successful run. */
  const LocalProgress: seq<JsNumber> := [Finite(10), Finite(30), Finite(50), Finite(90), Finite(100)]

  /** The progress values of a successful run rise strictly and stay within 0 to 100. */
  lemma {:induction false} LocalProgressRises()
    ensures forall i :: 0 <= i < |LocalProgress| ==> 0 <= LocalProgress[i].value <= 100
    ensures forall i, j :: 0 <= i < j < |LocalProgress| ==> LocalProgress[i].value < LocalProgress[j].value
  {
  }

  /** How the progress values of a run build up, stage by stage, and where a failed run can stop.
      These facts only spell out concatenations of constant lists; the stage methods call this
      lemma so that the solver does not have to unfold those lists inside their own proofs. */
  lemma {:induction false} LocalProgressSteps()
    ensures [Finite(10)] < LocalProgress && [Finite(10)] + [] < LocalProgress
    ensures [Finite(10)] + [Finite(30)] == [Finite(10), Finite(30)]
    ensures [Finite(10), Finite(30)] + [Finite(50)] < LocalProgress
    ensures [Finite(10), Finite(30)] + [Finite(50)] + [] < LocalProgress
    ensures [Finite(10), Finite(30)] + [Finite(50)] + [Finite(90), Finite(100)] == LocalProgress
  {
  }

  /** How Python renders a boolean. */
  function PyBool(b: bool): Line {
    if b then "True" else "False"
  }

  /** A count followed by the rest of a message. */
  function CountText(n: nat, after: Line): (s: string)
    ensures SingleLine(s)
  {
    assert AllDigits(NatToDecimal(n));
    SingleLineConcat(NatToDecimal(n), after);
    NatToDecimal(n) + after
  }

  function CountStatus(before: Line, n: nat, after: Line): (s: string)
    ensures SingleLine(s)
  {
    SingleLineConcat(before, CountText(n, after));
    before + CountText(n, after)
  }

  /**
   * A plain print that starts with a fixed one-line prefix beginning with
   * neither `P` nor `O` is read as plain text, and is one line exactly when
   * the rest is.
   */
  lemma {:induction false} PrefixedPlain(prefix: Line, text: string)
    requires prefix != [] && prefix[0] != 'P' && prefix[0] != 'O'
    ensures Printable(Plain(prefix + text)) <==> SingleLine(text)
  {
    var t := prefix + text;
    assert t[0] == prefix[0];
    assert "PROGRESS:"[0] == 'P' && "OUTPUT:"[0] == 'O';
    if SingleLine(text) {
      SingleLineConcat(prefix, text);
    } else {
      var i :| 0 <= i < |text| && text[i] == '\n';
      assert t[|prefix| + i] == '\n';
    }
  }

  /** The message of the exception raised when the folder is missing (line 31). */
  function FolderNotFound(folder: string): string {
    FolderNotFoundPrefix + folder
  }

  /** Lines 27-43: the images found, or the message of the exception raised before. */
  function Scanned(folder: string, present: bool, children: seq<string>): Result<seq<string>, string> {
    if !present then Err(FolderNotFound(folder))
    else if FilterImages(children) == [] then Err(NoImages)
    else Ok(FilterImages(children))
  }

  /**
   * What the `try` block of `main()` ends with: the video path the generator
   * returns, or the message of the first exception.
   */
  function LocalOutcome(folder: string, present: bool, children: seq<string>, shuffled: seq<string>,
                        numImages: Option<int>, duration: int, output: string,
                        generate: (seq<string>, string, int) -> GeneratorRun)
    : Result<string, string>
  {
    match Scanned(folder, present, children)
    case Err(e) => Err(e)
    case Ok(_) => generate(PyTake(shuffled, NumImagesToUse(numImages, duration)), output, duration).result
  }

  /** Lines 24-29: announce the loading, report 10, show the folder and whether it exists. */
  method ProbeStage(folder: string, present: bool) returns (printed: seq<Printed>)
    ensures printed ==
      [StatusOut(Loading), ProgressOut(10), Plain(LookingPrefix + folder), Plain(ExistsPrefix + PyBool(present))]
    ensures Progresses(printed) == [Finite(10)] && FirstOutput(printed).None?
    ensures AllPrintable(printed) <==> SingleLine(folder)
  {
    printed := [StatusOut(Loading), ProgressOut(10)];
    assert Progresses(printed) == [Finite(10)] && FirstOutput(printed).None? && AllPrintable(printed) by {
      Announce([], Loading, 10);
      assert [] + printed == printed;
    }
    var looking := Plain(LookingPrefix + folder);
    PrefixedPlain(LookingPrefix, folder);
    PrintStep(printed, looking);
    printed := printed + [looking];
    var existence := Plain(ExistsPrefix + PyBool(present));
    PrefixedPlain(ExistsPrefix, PyBool(present));
    PrintStep(printed, existence);
    printed := printed + [existence];
  }

  /** Line 39: show how many images were found. */
  method CountStage(printed: seq<Printed>, files: seq<string>) returns (out: seq<Printed>)
    ensures out == printed + [Plain(FoundFilesPrefix + CountText(|files|, FilesSuffix))]
    ensures Progresses(out) == Progresses(printed) && FirstOutput(out) == FirstOutput(printed)
    ensures AllPrintable(out) <==> AllPrintable(printed)
  {
    var count := Plain(FoundFilesPrefix + CountText(|files|, FilesSuffix));
    PrefixedPlain(FoundFilesPrefix, CountText(|files|, FilesSuffix));
    PrintStep(printed, count);
    out := printed + [count];
  }

  /** Lines 40-41 and 45-46, once some images were found: show the first few and their number, report 30. */
  method ShowStage(printed: seq<Printed>, files: seq<string>) returns (out: seq<Printed>)
    ensures out == printed + [Plain(FirstFewPrefix + ListRepr(PyTake(files, 3))),
                              StatusOut(CountStatus(FoundPrefix, |files|, ImagesSuffix)), ProgressOut(30)]
    ensures Progresses(out) == Progresses(printed) + [Finite(30)]
    ensures FirstOutput(out) == FirstOutput(printed)
    ensures AllPrintable(out) <==> AllPrintable(printed)
  {
    var few := Plain(FirstFewPrefix + ListRepr(PyTake(files, 3)));
    PrefixedPlain(FirstFewPrefix, ListRepr(PyTake(files, 3)));
    PrintStep(printed, few);
    var found := CountStatus(FoundPrefix, |files|, ImagesSuffix);
    Announce(printed + [few], found, 30);
    out := printed + [few] + [StatusOut(found), ProgressOut(30)];
  }

  /** Lines 33-46, once the folder exists: filter the entries, show what was found, report 30. */
  method ScanStage(printed: seq<Printed>, folder: string, children: seq<string>)
    returns (out: seq<Printed>, images: Result<seq<string>, string>)
    ensures images == Scanned(folder, true, children)
    ensures |out| > |printed| && out[..|printed|] == printed
    ensures Progresses(out) == Progresses(printed) + if images.Ok? then [Finite(30)] else []
    ensures FirstOutput(out) == FirstOutput(printed)
    ensures AllPrintable(out) <==> AllPrintable(printed)
  {
    var files := FilterImages(children);
    var counted := CountStage(printed, files);
    if files == [] {
      out := counted;
      images := Err(NoImages);
      return;
    }
    out := ShowStage(counted, files);
    images := Ok(files);
  }

  /** Lines 49-59: choose the images, announce how many, report 50. */
  method SelectStage(printed: seq<Printed>, shuffled: seq<string>, numImages: Option<int>, duration: int)
    returns (out: seq<Printed>, selected: seq<string>)
    ensures selected == PyTake(shuffled, NumImagesToUse(numImages, duration))
    ensures out == printed + [StatusOut(CountStatus(UsingPrefix, |selected|, EachSuffix)), ProgressOut(50)]
    ensures Progresses(out) == Progresses(printed) + [Finite(50)]
    ensures FirstOutput(out) == FirstOutput(printed)
    ensures AllPrintable(out) <==> AllPrintable(printed)
  {
    var count := NumImagesToUse(numImages, duration);
    selected := PyTake(shuffled, count);
    var using := CountStatus(UsingPrefix, |selected|, EachSuffix);
    Announce(printed, using, 50);
    out := printed + [StatusOut(using), ProgressOut(50)];
  }

  /** Lines 62-68: announce the video, and say that the old one is deleted when there is one. */
  method ClearStage(printed: seq<Printed>, output: string, outputExists: bool) returns (out: seq<Printed>)
    ensures out == printed + [StatusOut(Creating)] + if outputExists then [Plain(DeletingPrefix + output)] else []
    ensures Progresses(out) == Progresses(printed) && FirstOutput(out) == FirstOutput(printed)
    ensures AllPrintable(out) <==> AllPrintable(printed) && (outputExists ==> SingleLine(output))
  {
    PrintStep(printed, StatusOut(Creating));
    out := printed + [StatusOut(Creating)];
    if outputExists {
      var deleting := Plain(DeletingPrefix + output);
      PrefixedPlain(DeletingPrefix, output);
      PrintStep(out, deleting);
      out := out + [deleting];
    } else {
      assert out == out + [];
    }
  }

  /** Lines 62-80: clear the way for the video, then render. */
  method CreateStage(printed: seq<Printed>, selected: seq<string>, output: string, outputExists: bool, duration: int,
                     generate: (seq<string>, string, int) -> GeneratorRun)
    returns (out: seq<Printed>, stderr: string, video: Result<string, string>)
    requires FirstOutput(printed).None?
    ensures video == generate(selected, output, duration).result
    ensures |out| > |printed| && out[..|printed|] == printed
    ensures video.Ok? ==> out[|out| - 1] == OutputOut(video.value)
    ensures Progresses(out) == Progresses(printed) + if video.Ok? then [Finite(90), Finite(100)] else []
    ensures FirstOutput(out) == if video.Ok? then Some(Trim(video.value)) else None
    ensures && AllPrintable(printed) && GeneratorQuiet(generate) && SingleLine(output)
            && (video.Ok? ==> SingleLine(video.value))
            ==> AllPrintable(out)
  {
    var cleared := ClearStage(printed, output, outputExists);
    out, stderr, video := Render(cleared, selected, output, duration, generate);
    assert out[..|printed|] == printed by {
      assert out[..|printed|] == out[..|cleared|][..|printed|];
    }
  }

  /**
   * Lines 49-80, once images were found and shuffled: select some, then
   * render. The generator receives a prefix of the shuffled images, drawn
   * from the images found.
   */
  method ImagesStage(printed: seq<Printed>, images: seq<string>, shuffled: seq<string>, numImages: Option<int>,
                     duration: int, output: string, outputExists: bool,
                     generate: (seq<string>, string, int) -> GeneratorRun)
    returns (out: seq<Printed>, stderr: string, result: Result<string, string>)
    requires multiset(shuffled) == multiset(images)
    requires Progresses(printed) == [Finite(10), Finite(30)] && FirstOutput(printed).None?
    ensures result == generate(PyTake(shuffled, NumImagesToUse(numImages, duration)), output, duration).result
    ensures var count := NumImagesToUse(numImages, duration);
      var selected := PyTake(shuffled, count);
      && multiset(selected) <= multiset(images)
      && (count >= 0 ==> |selected| == Min(count, |images|))
    ensures |out| > |printed| && out[..|printed|] == printed
    ensures Reported(out, result, LocalProgress)
    ensures && AllPrintable(printed) && GeneratorQuiet(generate) && SingleLine(output)
            && (result.Ok? ==> SingleLine(result.value))
            ==> AllPrintable(out)
  {
    SelectionMeaning(images, shuffled, numImages, duration);
    var selected;
    out, selected := SelectStage(printed, shuffled, numImages, duration);
    ghost var chosen := out;
    out, stderr, result := CreateStage(out, selected, output, outputExists, duration, generate);
    LocalProgressSteps();
    assert out[..|printed|] == printed by {
      assert out[..|printed|] == out[..|chosen|][..|printed|];
    }
  }

  /** Lines 33-80, once the folder is known to exist: scan, select, render. */
  method Pipeline(printed: seq<Printed>, folder: string, children: seq<string>, shuffled: seq<string>,
                  numImages: Option<int>, duration: int, output: string, outputExists: bool,
                  generate: (seq<string>, string, int) -> GeneratorRun)
    returns (out: seq<Printed>, stderr: string, result: Result<string, string>)
    requires multiset(shuffled) == multiset(FilterImages(children))
    requires Progresses(printed) == [Finite(10)] && FirstOutput(printed).None?
    ensures result == LocalOutcome(folder, true, children, shuffled, numImages, duration, output, generate)
    ensures multiset(PyTake(shuffled, NumImagesToUse(numImages, duration))) <= multiset(FilterImages(children))
    ensures |out| > |printed| && out[..|printed|] == printed
    ensures Reported(out, result, LocalProgress)
    ensures && AllPrintable(printed) && GeneratorQuiet(generate) && SingleLine(output)
            && (result.Ok? ==> SingleLine(result.value))
            ==> AllPrintable(out)
  {
    var images;
    out, images := ScanStage(printed, folder, children);
    if images.Err? {
      SelectionMeaning(FilterImages(children), shuffled, numImages, duration);
      LocalProgressSteps();
      stderr := "";
      result := Err(images.error);
      return;
    }
    ghost var scanned := out;
    LocalProgressSteps();
    out, stderr, result := ImagesStage(out, images.value, shuffled, numImages, duration, output, outputExists,
                                       generate);
    assert out[..|printed|] == printed by {
      assert out[..|printed|] == out[..|scanned|][..|printed|];
    }
  }

  /**
   * The `try` block of `main()` (lines 23-82): the print calls of each
   * step in order, what the generator wrote to standard error, and the
   * video path or the message of the exception that ended the run.
   */
  method Attempt(folder: string, present: bool, children: seq<string>, shuffled: seq<string>,
                 numImages: Option<int>, duration: int, output: string, outputExists: bool,
                 generate: (seq<string>, string, int) -> GeneratorRun)
    returns (printed: seq<Printed>, stderr: string, result: Result<string, string>)
    requires multiset(shuffled) == multiset(FilterImages(children))
    ensures result == LocalOutcome(folder, present, children, shuffled, numImages, duration, output, generate)
    ensures |printed| >= 2 && printed[0] == StatusOut(Loading) && printed[1] == ProgressOut(10)
    ensures Reported(printed, result, LocalProgress)
    ensures GeneratorQuiet(generate) && SingleLine(folder) && SingleLine(output)
            && (result.Ok? ==> SingleLine(result.value))
            ==> AllPrintable(printed)
  {
    printed := ProbeStage(folder, present);
    if !present {
      LocalProgressSteps();
      stderr := "";
      result := Err(FolderNotFound(folder));
      return;
    }
    ghost var probed := printed;
    printed, stderr, result := Pipeline(printed, folder, children, shuffled, numImages, duration, output, outputExists,
                                        generate);
    assert printed[0] == probed[0] && printed[1] == probed[1] by {
      assert printed[..|probed|][0] == printed[0] && printed[..|probed|][1] == printed[1];
    }
  }

  /**
   * `main()` (lines 14-87), whose return value would be the exit code: the
   * attempt, and after any exception the error report on both streams and 1.
   */
  method Run(folder: string, present: bool, children: seq<string>, shuffled: seq<string>,
              numImages: Option<int>, duration: int, output: string, outputExists: bool,
              generate: (seq<string>, string, int) -> GeneratorRun)
    returns (printed: seq<Printed>, stderr: string, code: int)
    requires multiset(shuffled) == multiset(FilterImages(children))
    ensures var outcome := LocalOutcome(folder, present, children, shuffled, numImages, duration, output, generate);
      && code == (if outcome.Ok? then 0 else 1)
      && (outcome.Ok? ==> Reported(printed, outcome, LocalProgress))
      && (outcome.Err? ==> Failed(printed, stderr, outcome.error, LocalProgress))
      && (&& GeneratorQuiet(generate) && SingleLine(folder) && SingleLine(output)
          && SingleLine(match outcome case Ok(video) => video case Err(e) => e)
          ==> AllPrintable(printed))
  {
    var result;
    printed, stderr, result := Attempt(folder, present, children, shuffled, numImages, duration, output, outputExists,
                                       generate);
    if result.Err? {
      printed, stderr := ReportFailure(printed, stderr, result.error, LocalProgress);
      code := 1;
    } else {
      code := 0;
    }
  }
}
