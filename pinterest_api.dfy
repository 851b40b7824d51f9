/**
 * The pure parts of the Pinterest client (backend/pinterest_api.py): the
 * board identifier taken from a URL by the pattern `/([^/]+)/([^/]+)/?$`,
 * the number of pins selected, the cache file name of each download, and
 * the download loop with its error paths.
 */
module PinterestApi {
  import opened Wrappers
  import opened Strings

  // ---------------------------------------------------------------------------
  // extract_board_id
  // ---------------------------------------------------------------------------

  /** The first `/` at or after `from`, or the length of the text when there is none. */
  function NextSlash(s: string, from: nat): (r: nat)
    requires from <= |s|
    ensures from <= r <= |s|
    ensures forall i :: from <= i < r ==> s[i] != '/'
    ensures r < |s| ==> s[r] == '/'
    decreases |s| - from
  {
    if from == |s| || s[from] == '/' then from else NextSlash(s, from + 1)
  }

  /** The first `/` is wherever a `/`-free stretch from `from` stops at a `/` or the end. */
  lemma {:induction false} NextSlashIs(s: string, from: nat, r: nat)
    requires from <= r <= |s|
    requires forall i :: from <= i < r ==> s[i] != '/'
    requires r == |s| || s[r] == '/'
    ensures NextSlash(s, from) == r
  {
  }

  /** Where `$` matches without MULTILINE: at the end, or before a final line break. */
  predicate AtEnd(s: string, k: nat) {
    k == |s| || (k == |s| - 1 && s[k] == '\n')
  }

  /**
   * The pattern anchored at the `/` at `p`: the first group runs to the next
   * `/`, the second to the `/` after that or to the end, and then at most one
   * `/` may follow before the end. Neither group can give back characters
   * to make the rest match, since what follows a shorter group is never `/`.
   */
  function MatchAt(s: string, p: nat): (m: Option<(string, string)>)
    requires p < |s| && s[p] == '/'
    ensures m.Some? ==> m.value.0 != [] && m.value.1 != [] && '/' !in m.value.0 && '/' !in m.value.1
  {
    var q := NextSlash(s, p + 1);
    if q == |s| || q == p + 1 then None
    else
      var r := NextSlash(s, q + 1);
      if r == q + 1 then None
      else if r == |s| || AtEnd(s, r + 1) then
        Some((s[p + 1..q], s[q + 1..r]))
      else None
  }

  /** `re.search`: the leftmost position from `from` on where the pattern matches. */
  function Search(s: string, from: nat): (m: Option<(string, string)>)
    requires from <= |s|
    ensures m.Some? ==> m.value.0 != [] && m.value.1 != [] && '/' !in m.value.0 && '/' !in m.value.1
    decreases |s| - from
  {
    if from == |s| then None
    else if s[from] == '/' && MatchAt(s, from).Some? then MatchAt(s, from)
    else Search(s, from + 1)
  }

  /**
   * `extract_board_id`: a URL (text starting with `http`) the pattern
   * matches gives `group1/group2`; anything else is returned unchanged.
   */
  function ExtractBoardId(boardUrlOrId: string): (id: string)
    ensures !StartsWith(boardUrlOrId, "http") ==> id == boardUrlOrId
    ensures StartsWith(boardUrlOrId, "http") && Search(boardUrlOrId, 0).None? ==> id == boardUrlOrId
  {
    if StartsWith(boardUrlOrId, "http") then
      match Search(boardUrlOrId, 0)
      case Some((owner, board)) => owner + "/" + board
      case None => boardUrlOrId
    else
      boardUrlOrId
  }

  /** What may follow the second group: nothing, one `/`, or `/` and a final line break. */
  predicate IsTail(tail: string) {
    tail == "" || tail == "/" || tail == "/\n"
  }

  /** The text is some prefix, `/g1/g2`, and a tail. */
  predicate EndsWithSegments(s: string, prefix: string, g1: string, g2: string, tail: string) {
    && s == prefix + "/" + g1 + "/" + g2 + tail
    && g1 != [] && g2 != [] && '/' !in g1 && '/' !in g2 && IsTail(tail)
  }

  /** A match at `p` means the text ends with `/g1/g2` and a tail from `p` on. */
  lemma {:induction false} MatchAtShape(s: string, p: nat)
    requires p < |s| && s[p] == '/' && MatchAt(s, p).Some?
    ensures EndsWithSegments(s, s[..p], MatchAt(s, p).value.0, MatchAt(s, p).value.1,
                             s[p + 2 + |MatchAt(s, p).value.0| + |MatchAt(s, p).value.1|..])
  {
    var q := NextSlash(s, p + 1);
    var r := NextSlash(s, q + 1);
    var tail := s[r..];
    assert tail == "" || tail == "/" || tail == "/\n" by {
      if r < |s| {
        assert tail[0] == '/';
        if r + 1 < |s| {
          assert tail == [s[r], s[r + 1]];
        } else {
          assert tail == [s[r]];
        }
      }
    }
    assert s == s[..p] + "/" + s[p + 1..q] + "/" + s[q + 1..r] + tail;
  }

  /**
   * What a match means: it takes the last two non-empty `/`-free segments,
   * ignoring one trailing `/` (and a final line break after it).
   */
  lemma {:induction false} SearchShape(s: string, from: nat)
    requires from <= |s| && Search(s, from).Some?
    ensures exists prefix: string, tail: string ::
      EndsWithSegments(s, prefix, Search(s, from).value.0, Search(s, from).value.1, tail)
    decreases |s| - from
  {
    if s[from] == '/' && MatchAt(s, from).Some? {
      MatchAtShape(s, from);
    } else {
      SearchShape(s, from + 1);
    }
  }

  /** At a `/` before the last two segments, the pattern cannot match. */
  lemma {:induction false} NoEarlierMatch(s: string, prefix: string, g1: string, g2: string, tail: string, p: nat)
    requires EndsWithSegments(s, prefix, g1, g2, tail) && !(tail == "" && g2 == "\n")
    requires p < |prefix| && s[p] == '/'
    ensures MatchAt(s, p).None?
  {
    var a := |prefix|;
    var b := a + 1 + |g1|;
    assert s[a] == '/' && s[b] == '/';
    assert |s| == b + 1 + |g2| + |tail|;
    var q := NextSlash(s, p + 1);
    if q < |s| && q != p + 1 {
      assert q <= a;
      var r := NextSlash(s, q + 1);
      if q < a {
        assert r <= a;
      } else {
        assert r == b by {
          assert forall i :: a + 1 <= i < b ==> s[i] == g1[i - a - 1];
        }
        assert s[b + 1] == g2[0];
        assert |g2| == 1 && tail == "" ==> g2 == [g2[0]];
      }
    }
  }

  /** Searching from a `/`-free stretch finds the first match after it. */
  lemma {:induction false} SearchSkips(s: string, from: nat, to: nat)
    requires from <= to <= |s|
    requires forall p :: from <= p < to && s[p] == '/' ==> MatchAt(s, p).None?
    ensures Search(s, from) == Search(s, to)
    decreases |s| - from
  {
    if from < to {
      SearchSkips(s, from + 1, to);
    }
  }

  /** Where the pieces of a text made of a prefix, two segments and a tail lie. */
  lemma {:induction false} SegmentsLayout(s: string, prefix: string, g1: string, g2: string, tail: string)
    requires EndsWithSegments(s, prefix, g1, g2, tail)
    ensures var a := |prefix|; var b := a + 1 + |g1|; var c := b + 1 + |g2|;
      && |s| == c + |tail| && s[a] == '/' && s[b] == '/'
      && s[a + 1..b] == g1 && s[b + 1..c] == g2 && s[c..] == tail
  {
    var a := |prefix|;
    var b := a + 1 + |g1|;
    var c := b + 1 + |g2|;
    assert s == (prefix + "/") + g1 + ("/" + g2 + tail);
    assert s[a + 1..] == g1 + ("/" + g2 + tail);
    assert s[b..] == "/" + g2 + tail;
    assert s[b + 1..] == g2 + tail;
  }

  /** A tail that starts at `c` is over at `c`, or is a `/` after which the pattern's `$` matches. */
  lemma {:induction false} TailLayout(s: string, c: nat, tail: string)
    requires c <= |s| && s[c..] == tail && IsTail(tail)
    ensures c == |s| || (s[c] == '/' && AtEnd(s, c + 1))
  {
    if c < |s| {
      assert s[c] == tail[0];
      if tail == "/\n" {
        assert s[c + 1] == tail[1];
      }
    }
  }

  /** A segment holds no `/`, wherever it lies in the text. */
  lemma {:induction false} SegmentSlashFree(s: string, from: nat, to: nat, g: string)
    requires from <= to <= |s| && s[from..to] == g && '/' !in g
    ensures forall i :: from <= i < to ==> s[i] != '/'
  {
    forall i | from <= i < to
      ensures s[i] != '/'
    {
      assert s[i] == g[i - from];
    }
  }

  /** The pattern matches at the `/` before the last two segments, and gives those segments. */
  lemma {:induction false} MatchAtSegments(s: string, prefix: string, g1: string, g2: string, tail: string)
    requires EndsWithSegments(s, prefix, g1, g2, tail)
    ensures |prefix| < |s| && s[|prefix|] == '/' && MatchAt(s, |prefix|) == Some((g1, g2))
  {
    SegmentsLayout(s, prefix, g1, g2, tail);
    var a := |prefix|;
    var b := a + 1 + |g1|;
    var c := b + 1 + |g2|;
    SegmentSlashFree(s, a + 1, b, g1);
    NextSlashIs(s, a + 1, b);
    TailLayout(s, c, tail);
    SegmentSlashFree(s, b + 1, c, g2);
    NextSlashIs(s, b + 1, c);
  }

  /**
   * The converse: when the text ends with `/g1/g2` and a tail, the search
   * finds exactly those two segments (except when the second one is a lone
   * line break, which an earlier position may claim first).
   */
  lemma {:induction false} SearchFinds(s: string, prefix: string, g1: string, g2: string, tail: string)
    requires EndsWithSegments(s, prefix, g1, g2, tail) && !(tail == "" && g2 == "\n")
    ensures Search(s, 0) == Some((g1, g2))
  {
    forall p | 0 <= p < |prefix| && s[p] == '/'
      ensures MatchAt(s, p).None?
    {
      NoEarlierMatch(s, prefix, g1, g2, tail, p);
    }
    MatchAtSegments(s, prefix, g1, g2, tail);
    SearchSkips(s, 0, |prefix|);
  }

  /** Text with at most one `/` never matches: the pattern needs two. */
  lemma {:induction false} OneSlashNoMatch(s: string, from: nat)
    requires from <= |s|
    requires forall i, j :: 0 <= i < j < |s| ==> s[i] != '/' || s[j] != '/'
    ensures Search(s, from).None?
    decreases |s| - from
  {
    if from < |s| {
      OneSlashNoMatch(s, from + 1);
    }
  }

  /** A board identifier taken from a URL holds exactly one `/`. */
  lemma {:induction false} ExtractedHasOneSlash(s: string)
    requires StartsWith(s, "http") && Search(s, 0).Some?
    ensures var id := ExtractBoardId(s); var g1 := Search(s, 0).value.0;
      id[|g1|] == '/' && forall i :: 0 <= i < |id| && i != |g1| ==> id[i] != '/'
  {
    var g1 := Search(s, 0).value.0;
    var g2 := Search(s, 0).value.1;
    var id := g1 + "/" + g2;
    assert forall i :: 0 <= i < |g1| ==> id[i] == g1[i];
    assert forall i :: |g1| < i < |id| ==> id[i] == g2[i - |g1| - 1];
  }

  /** `extract_board_id` is idempotent. */
  lemma {:induction false} ExtractBoardIdIdempotent(s: string)
    ensures ExtractBoardId(ExtractBoardId(s)) == ExtractBoardId(s)
  {
    if StartsWith(s, "http") && Search(s, 0).Some? {
      var id := ExtractBoardId(s);
      ExtractedHasOneSlash(s);
      OneSlashNoMatch(id, 0);
    }
  }

  // ---------------------------------------------------------------------------
  // download_pins
  // ---------------------------------------------------------------------------

  /** A pin, reduced to the URL of its original image. */
  datatype Pin = Pin(imageUrl: string)

  const NoPins: string := "No pins found in board"
  const DefaultCount: nat := 20

  /**
   * How many pins are drawn: the requested count, or `min(len(pins), 20)`
   * when none is given, never more than there are pins; a negative count
   * draws none, as `random.choices` does with a negative `k`.
   */
  function SelectionCount(found: nat, numImages: Option<int>): (k: nat)
    ensures k <= found
    ensures numImages.None? ==> k == if found < DefaultCount then found else DefaultCount
    ensures numImages.Some? && 0 <= numImages.value <= found ==> k == numImages.value
    ensures numImages.Some? && found < numImages.value ==> k == found
    ensures numImages.Some? && numImages.value < 0 ==> k == 0
  {
    var requested := match numImages
      case None => if found < DefaultCount then found else DefaultCount
      case Some(n) => n;
    var clamped := if requested < found then requested else found;
    if clamped < 0 then 0 else clamped
  }

  /** `url.split('.')[-1]`. */
  function AfterLastDot(url: string): string {
    SplitOn(url, '.')[|SplitOn(url, '.')| - 1]
  }

  /** `image_url.split('.')[-1].split('?')[0]`. */
  function Extension(url: string): string {
    SplitOn(AfterLastDot(url), '?')[0]
  }

  /** The text after the URL's last `.`: a suffix without `.`, the whole URL when it has none. */
  lemma {:induction false} AfterLastDotMeaning(url: string)
    ensures var tail := AfterLastDot(url);
      '.' !in tail && EndsWith(url, tail) && (|tail| == |url| || url[|url| - |tail| - 1] == '.')
  {
    LastPiece(url, '.');
  }

  /**
   * The extension is the text after the URL's last `.` up to the first `?`
   * in it: it holds neither `.` nor `?`.
   */
  lemma {:induction false} ExtensionMeaning(url: string)
    ensures var tail := AfterLastDot(url); var ext := Extension(url);
      && StartsWith(tail, ext) && '?' !in ext && '.' !in ext
      && (|ext| == |tail| || tail[|ext|] == '?')
  {
    var tail := AfterLastDot(url);
    AfterLastDotMeaning(url);
    FirstPiece(tail, '?');
    var ext := Extension(url);
    assert forall i :: 0 <= i < |ext| ==> ext[i] == tail[i];
  }

  /** `str(Path('cache/images') / f"pin_{i}.{ext}")`. */
  function CachePath(i: nat, ext: string): string {
    "cache/images/pin_" + NatToDecimal(i) + "." + ext
  }

  /** Cache paths differ for different indices: each download gets its own file. */
  lemma {:induction false} CachePathInjective(i: nat, j: nat, e1: string, e2: string)
    requires CachePath(i, e1) == CachePath(j, e2)
    ensures i == j && e1 == e2
  {
    var prefix := "cache/images/pin_";
    var t1 := NatToDecimal(i) + "." + e1;
    var t2 := NatToDecimal(j) + "." + e2;
    assert CachePath(i, e1) == prefix + t1 && CachePath(j, e2) == prefix + t2;
    assert t1 == CachePath(i, e1)[|prefix|..] == t2;
    assert '.' !in NatToDecimal(i) && '.' !in NatToDecimal(j) by {
      assert AllDigits(NatToDecimal(i)) && AllDigits(NatToDecimal(j));
    }
    SeparatorSplitsUniquely(NatToDecimal(i), e1, NatToDecimal(j), e2, '.');
    NatToDecimalInjective(i, j);
  }

  /** The pins `random.choices` draws: the i-th is the pin at index `draw(i)`. */
  function Selected(pins: seq<Pin>, k: nat, draw: int -> int): (sel: seq<Pin>)
    requires pins != []
    ensures |sel| == k && forall i :: 0 <= i < k ==> sel[i] in pins
  {
    seq(k, i => pins[draw(i) % |pins|])
  }

  /** The cache path of each selected pin, in order. */
  function ImagePaths(selected: seq<Pin>): (paths: seq<string>)
    ensures |paths| == |selected|
  {
    seq(|selected|, i requires 0 <= i < |selected| => CachePath(i, Extension(selected[i].imageUrl)))
  }

  /** The first selected pin whose image request fails, with the error it raises. */
  function FirstFailure(selected: seq<Pin>, download: string -> Option<string>): (f: Option<(nat, string)>)
    ensures f.Some? ==> f.value.0 < |selected| && download(selected[f.value.0].imageUrl) == Some(f.value.1)
    ensures f.Some? ==> forall i :: 0 <= i < f.value.0 ==> download(selected[i].imageUrl).None?
    ensures f.None? ==> forall i :: 0 <= i < |selected| ==> download(selected[i].imageUrl).None?
  {
    if selected == [] then None
    else match download(selected[0].imageUrl)
      case Some(e) => Some((0, e))
      case None => match FirstFailure(selected[1..], download)
        case None => None
        case Some((i, e)) => Some((i + 1, e))
  }

  /**
   * What `download_pins` returns or raises: no pins raises before anything
   * is drawn; otherwise the first drawn pin whose request fails raises, and
   * if none fails the result holds one cache path per drawn pin.
   */
  function DownloadResult(pins: seq<Pin>, numImages: Option<int>, draw: int -> int,
                          download: string -> Option<string>): Result<seq<string>, string>
  {
    if pins == [] then Err(NoPins)
    else
      var selected := Selected(pins, SelectionCount(|pins|, numImages), draw);
      match FirstFailure(selected, download)
      case Some((_, e)) => Err(e)
      case None => Ok(ImagePaths(selected))
  }

  /**
   * The download succeeds exactly when there are pins and every drawn image
   * downloads, and then yields one distinct cache file per drawn pin.
   */
  lemma {:induction false} DownloadResultMeaning(pins: seq<Pin>, numImages: Option<int>, draw: int -> int,
                              download: string -> Option<string>)
    ensures DownloadResult(pins, numImages, draw, download).Ok? <==>
      pins != [] &&
      var selected := Selected(pins, SelectionCount(|pins|, numImages), draw);
      forall i :: 0 <= i < |selected| ==> download(selected[i].imageUrl).None?
    ensures DownloadResult(pins, numImages, draw, download).Ok? ==>
      var paths := DownloadResult(pins, numImages, draw, download).value;
      && |paths| == SelectionCount(|pins|, numImages)
      && forall i, j :: 0 <= i < j < |paths| ==> paths[i] != paths[j]
  {
    if pins != [] {
      var selected := Selected(pins, SelectionCount(|pins|, numImages), draw);
      FirstFailurePrefix(selected, |selected|, download);
      assert selected[..|selected|] == selected;
      ImagePathsDistinct(selected);
    }
  }

  /** `download_pins`, proved against its reference definition. */
  method DownloadPins(pins: seq<Pin>, numImages: Option<int>, draw: int -> int,
                      download: string -> Option<string>)
    returns (r: Result<seq<string>, string>)
    ensures r == DownloadResult(pins, numImages, draw, download)
  {
    if pins == [] {
      return Err(NoPins);
    }
    var count := SelectionCount(|pins|, numImages);
    var selected := Selected(pins, count, draw);
    var imagePaths: seq<string> := [];
    var i := 0;
    while i < |selected|
      invariant 0 <= i <= |selected|
      invariant FirstFailure(selected[..i], download).None?
      invariant imagePaths == ImagePaths(selected[..i])
    {
      var pin := selected[i];
      var failure := download(pin.imageUrl);
      if failure.Some? {
        FirstFailureAt(selected, i, download);
        return Err(failure.value);
      }
      var ext := Extension(pin.imageUrl);
      imagePaths := imagePaths + [CachePath(i, ext)];
      FirstFailureStep(selected, i, download);
      ImagePathsStep(selected, i);
      i := i + 1;
    }
    assert selected[..i] == selected;
    return Ok(imagePaths);
  }

  /** Failures are found in order: a clean prefix and a failing next pin fix the first failure. */
  lemma {:induction false} FirstFailureAt(selected: seq<Pin>, i: nat, download: string -> Option<string>)
    requires i < |selected| && FirstFailure(selected[..i], download).None?
    requires download(selected[i].imageUrl).Some?
    ensures FirstFailure(selected, download) == Some((i, download(selected[i].imageUrl).value))
  {
    assert forall j :: 0 <= j < i ==> selected[..i][j] == selected[j];
  }

  /** A clean prefix followed by a pin that downloads is a longer clean prefix. */
  lemma {:induction false} FirstFailureStep(selected: seq<Pin>, i: nat, download: string -> Option<string>)
    requires i < |selected| && FirstFailure(selected[..i], download).None?
    requires download(selected[i].imageUrl).None?
    ensures FirstFailure(selected[..i + 1], download).None?
  {
    FirstFailurePrefix(selected, i, download);
    FirstFailurePrefix(selected, i + 1, download);
  }

  /** One more downloaded pin adds its own cache path. */
  lemma {:induction false} ImagePathsStep(selected: seq<Pin>, i: nat)
    requires i < |selected|
    ensures ImagePaths(selected[..i + 1]) ==
      ImagePaths(selected[..i]) + [CachePath(i, Extension(selected[i].imageUrl))]
  {
    assert selected[..i + 1][i] == selected[i];
    assert forall j :: 0 <= j < i ==> selected[..i + 1][j] == selected[..i][j];
  }

  /** A prefix is clean exactly when all its pins download. */
  lemma {:induction false} FirstFailurePrefix(selected: seq<Pin>, n: nat, download: string -> Option<string>)
    requires n <= |selected|
    ensures FirstFailure(selected[..n], download).None? <==>
      forall j :: 0 <= j < n ==> download(selected[j].imageUrl).None?
  {
    var pre := selected[..n];
    assert forall j :: 0 <= j < n ==> pre[j] == selected[j];
    if FirstFailure(pre, download).Some? {
      var k := FirstFailure(pre, download).value.0;
      assert download(selected[k].imageUrl).Some?;
    }
  }

  /** The returned files are distinct, and each extension holds no `.` or `?`. */
  lemma {:induction false} ImagePathsDistinct(selected: seq<Pin>)
    ensures forall i, j :: 0 <= i < j < |selected| ==> ImagePaths(selected)[i] != ImagePaths(selected)[j]
  {
    var paths := ImagePaths(selected);
    forall i, j | 0 <= i < j < |selected|
      ensures paths[i] != paths[j]
    {
      if paths[i] == paths[j] {
        CachePathInjective(i, j, Extension(selected[i].imageUrl), Extension(selected[j].imageUrl));
      }
    }
  }
}
