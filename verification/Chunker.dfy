/** Cutting a text into overlapping chunks, preferably at the end of a sentence or paragraph. */
module Chunker {
  import opened Whitespace

  const SEPARATORS: seq<string> := ["\n\n", "\n", ". ", "! ", "? ", "; "]

  /** A stretch of the normalised text. */
  datatype Window = Window(start: nat, end: nat)

  datatype TextChunk = TextChunk(text: string, start: nat, end: nat)

  predicate Matches(text: string, sep: string, i: int) {
    0 <= i && i + |sep| <= |text| && text[i..i + |sep|] == sep
  }

  /** The last match of sep that starts in lo..i, or -1. */
  function RFindFrom(text: string, sep: string, lo: nat, i: int): (r: int)
    ensures r == -1 || lo <= r <= i
    decreases i - lo + 1
  {
    if i < lo then -1 else if Matches(text, sep, i) then i else RFindFrom(text, sep, lo, i - 1)
  }

  /** text.rfind(sep, lo, hi): the last match that lies within text[lo..hi], or -1. */
  function RFind(text: string, sep: string, lo: nat, hi: nat): (r: int)
    ensures r == -1 || (lo <= r && r + |sep| <= hi)
  {
    RFindFrom(text, sep, lo, hi - |sep|)
  }

  lemma {:induction false} RFindFromIsLast(text: string, sep: string, lo: nat, i: int)
    ensures var r := RFindFrom(text, sep, lo, i);
      && (r != -1 ==> Matches(text, sep, r))
      && (forall j :: lo <= j <= i && j > r ==> !Matches(text, sep, j))
    decreases i - lo + 1
  {
    if lo <= i && !Matches(text, sep, i) {
      RFindFromIsLast(text, sep, lo, i - 1);
    }
  }

  /** The end of the window that starts at `start`: after the last occurrence, beyond the overlap, of
      the first separator that has one; the full size otherwise. */
  function CutFrom(text: string, start: nat, limit: nat, overlap: nat, seps: seq<string>): (end: nat)
    ensures end == limit || start + overlap < end <= limit
  {
    if seps == [] then limit else
      var last := RFind(text, seps[0], start, limit);
      if last > start + overlap then last + |seps[0]| else CutFrom(text, start, limit, overlap, seps[1..])
  }

  function Limit(n: nat, start: nat, size: nat): nat {
    if start + size < n then start + size else n
  }

  function Cut(text: string, start: nat, size: nat, overlap: nat): (end: nat)
    requires start < |text| && size >= 1
    ensures start < end <= |text| && end <= start + size
  {
    var limit := Limit(|text|, start, size);
    if limit < |text| then CutFrom(text, start, limit, overlap, SEPARATORS) else limit
  }

  function NextStart(start: nat, end: nat, overlap: nat): nat {
    if end - overlap <= start then end else end - overlap
  }

  predicate Fit(ws: seq<Window>, text: string) {
    forall i :: 0 <= i < |ws| ==> ws[i].start < ws[i].end <= |text|
  }

  function Windows(text: string, start: nat, size: nat, overlap: nat): (ws: seq<Window>)
    requires start <= |text| && size >= 1
    ensures Fit(ws, text)
    decreases |text| - start
  {
    if start == |text| then [] else
      var end := Cut(text, start, size, overlap);
      [Window(start, end)] + Windows(text, NextStart(start, end, overlap), size, overlap)
  }

  /** The chunks of the windows that are not blank. */
  function Emit(text: string, ws: seq<Window>): seq<TextChunk>
    requires Fit(ws, text)
  {
    if ws == [] then [] else ChunkAt(text, ws[0]) + Emit(text, ws[1..])
  }

  function ChunkAt(text: string, w: Window): seq<TextChunk>
    requires w.start < w.end <= |text|
  {
    var chunk := Strip(text[w.start..w.end]);
    if chunk != "" then [TextChunk(chunk, w.start, w.end)] else []
  }

  function ChunksOf(raw: string, size: nat, overlap: nat): seq<TextChunk>
    requires size >= 1
  {
    var text := Normalise(raw);
    if Blank(raw) then [] else Emit(text, Windows(text, 0, size, overlap))
  }

  // ---------------------------------------------------------------- the loop

  method FindCut(text: string, start: nat, size: nat, overlap: nat) returns (end: nat)
    requires start < |text| && size >= 1
    ensures end == Cut(text, start, size, overlap)
  {
    end := if start + size < |text| then start + size else |text|;
    if end < |text| {
      var limit := end;
      var k := 0;
      while k < |SEPARATORS|
        invariant k <= |SEPARATORS|
        invariant CutFrom(text, start, limit, overlap, SEPARATORS)
               == CutFrom(text, start, limit, overlap, SEPARATORS[k..])
      {
        var sep := SEPARATORS[k];
        assert SEPARATORS[k..][1..] == SEPARATORS[k + 1..];
        var last := RFind(text, sep, start, limit);
        if last > start + overlap {
          end := last + |sep|;
          return;
        }
        k := k + 1;
      }
    }
  }

  /** The chunks still to come when the loop is at `start`. */
  function ChunksFrom(text: string, start: nat, size: nat, overlap: nat): seq<TextChunk>
    requires start <= |text| && size >= 1
    decreases |text| - start
  {
    if start == |text| then [] else
      var end := Cut(text, start, size, overlap);
      ChunkAt(text, Window(start, end)) + ChunksFrom(text, NextStart(start, end, overlap), size, overlap)
  }

  lemma {:induction false} ChunksFromWindows(text: string, start: nat, size: nat, overlap: nat)
    requires start <= |text| && size >= 1
    ensures ChunksFrom(text, start, size, overlap) == Emit(text, Windows(text, start, size, overlap))
    decreases |text| - start
  {
    if start < |text| {
      var ws := Windows(text, start, size, overlap);
      var end := Cut(text, start, size, overlap);
      assert ws[1..] == Windows(text, NextStart(start, end, overlap), size, overlap);
      ChunksFromWindows(text, NextStart(start, end, overlap), size, overlap);
    }
  }

  /** What one iteration adds to the chunks. */
  function Added(chunks: seq<TextChunk>, chunk: string, w: Window): seq<TextChunk> {
    if chunk != "" then chunks + [TextChunk(chunk, w.start, w.end)] else chunks
  }

  lemma {:induction false} AddedRest(chunks: seq<TextChunk>, chunk: string, w: Window, rest: seq<TextChunk>)
    ensures Added(chunks, chunk, w) + rest ==
      chunks + ((if chunk != "" then [TextChunk(chunk, w.start, w.end)] else []) + rest)
  {
  }

  lemma {:induction false} ChunksStep(
    text: string, start: nat, size: nat, overlap: nat, end: nat, next: nat, chunks: seq<TextChunk>)
    requires start < |text| && size >= 1
    requires end == Cut(text, start, size, overlap) && next == NextStart(start, end, overlap)
    ensures chunks + ChunksFrom(text, start, size, overlap) ==
      Added(chunks, Strip(text[start..end]), Window(start, end)) + ChunksFrom(text, next, size, overlap)
  {
    AddedRest(chunks, Strip(text[start..end]), Window(start, end), ChunksFrom(text, next, size, overlap));
  }

  /** The loop over the normalised text, to which all offsets refer. */
  method ChunkNormalised(text: string, size: nat, overlap: nat) returns (chunks: seq<TextChunk>)
    requires size >= 1
    ensures chunks == Emit(text, Windows(text, 0, size, overlap))
  {
    chunks := [];
    var start := 0;
    ghost var all := ChunksFrom(text, 0, size, overlap);
    while start < |text|
      invariant start <= |text|
      invariant chunks + ChunksFrom(text, start, size, overlap) == all
      decreases |text| - start
    {
      var end := FindCut(text, start, size, overlap);
      ghost var next := NextStart(start, end, overlap);
      ChunksStep(text, start, size, overlap, end, next, chunks);
      var chunk := Strip(text[start..end]);
      if chunk != "" {
        chunks := chunks + [TextChunk(chunk, start, end)];
      }
      start := if end - overlap <= start then end else end - overlap;
      assert start == next;
    }
    ChunksFromWindows(text, 0, size, overlap);
  }

  method ChunkText(raw: string, size: nat, overlap: nat) returns (chunks: seq<TextChunk>)
    requires size >= 1
    ensures chunks == ChunksOf(raw, size, overlap)
    ensures forall c :: c in chunks ==> c.text != "" && SingleSpaced(c.text)
  {
    StripEmptyIffBlank(raw);
    ChunksAreSingleSpaced(raw, size, overlap);
    if Strip(raw) == "" {
      return [];
    }
    chunks := ChunkNormalised(Normalise(raw), size, overlap);
  }

  // ---------------------------------------------------------------- where windows end

  /** An occurrence of sep beyond the overlap and inside the window. */
  ghost predicate Breaks(text: string, sep: string, start: nat, limit: nat, overlap: nat, i: int) {
    i > start + overlap && i + |sep| <= limit && Matches(text, sep, i)
  }

  /** The window ends after the last break of seps[k], and no earlier separator has a break; with
      k == |seps| no separator has one and the window ends at its limit. */
  ghost predicate EndsAtBreak(
    text: string, seps: seq<string>, start: nat, limit: nat, overlap: nat, end: int, k: nat, i: int)
  {
    && k <= |seps|
    && (forall k', i' :: 0 <= k' < k ==> !Breaks(text, seps[k'], start, limit, overlap, i'))
    && (k == |seps| ==> end == limit)
    && (k < |seps| ==>
      && end == i + |seps[k]|
      && Breaks(text, seps[k], start, limit, overlap, i)
      && forall i' :: i' > i ==> !Breaks(text, seps[k], start, limit, overlap, i'))
  }

  lemma {:induction false} CutFromChoice(
    text: string, start: nat, limit: nat, overlap: nat, seps: seq<string>) returns (k: nat, i: int)
    ensures EndsAtBreak(text, seps, start, limit, overlap, CutFrom(text, start, limit, overlap, seps), k, i)
    decreases |seps|
  {
    k, i := 0, -1;
    if seps != [] {
      RFindFromIsLast(text, seps[0], start, limit - |seps[0]|);
      i := RFind(text, seps[0], start, limit);
      if i <= start + overlap {
        assert forall i' :: !Breaks(text, seps[0], start, limit, overlap, i');
        k, i := CutFromChoice(text, start, limit, overlap, seps[1..]);
        k := k + 1;
      }
    }
  }

  /** A window that stops short of the end of the text stops after the last break of the first separator
      that has a break in it, and has the full size only if no separator does. */
  lemma {:induction false} CutChoice(text: string, start: nat, size: nat, overlap: nat) returns (k: nat, i: int)
    requires size >= 1 && start + size < |text|
    ensures EndsAtBreak(text, ["\n\n", "\n", ". ", "! ", "? ", "; "], start, start + size, overlap,
                        Cut(text, start, size, overlap), k, i)
  {
    k, i := CutFromChoice(text, start, start + size, overlap, SEPARATORS);
  }

  // ---------------------------------------------------------------- arithmetic of the windows

  /** Windows are between 1 and `size` long, start at the given position and end at the end of the
      text, and there are at most as many as characters. */
  lemma {:induction false} WindowShapes(text: string, start: nat, size: nat, overlap: nat)
    requires start <= |text| && size >= 1
    ensures var ws := Windows(text, start, size, overlap);
      && (forall i :: 0 <= i < |ws| ==> start <= ws[i].start < ws[i].end <= |text| && ws[i].end <= ws[i].start + size)
      && |ws| <= |text| - start
      && (start < |text| ==> ws != [] && ws[0].start == start && ws[|ws| - 1].end == |text|)
    decreases |text| - start
  {
    if start < |text| {
      var end := Cut(text, start, size, overlap);
      WindowShapes(text, NextStart(start, end, overlap), size, overlap);
    }
  }

  /** How one window follows another. */
  predicate Follows(n: nat, size: nat, overlap: nat, w: Window, w': Window, isLast: bool) {
    if size <= overlap then w'.start == w.end && w.end < w'.end
    else w'.start == w.end - overlap && (w.end < w'.end || (w.end == w'.end == n && isLast))
  }

  predicate AllFollow(n: nat, size: nat, overlap: nat, ws: seq<Window>) {
    forall i :: 0 <= i < |ws| - 1 ==> Follows(n, size, overlap, ws[i], ws[i + 1], i + 1 == |ws| - 1)
  }

  /** When chunks are larger than the overlap, consecutive windows share exactly `overlap` characters
      and their ends strictly increase, except that the end of the text may be reached twice, by the
      last two windows; otherwise the windows partition the text. */
  lemma {:induction false} WindowsFollow(text: string, start: nat, size: nat, overlap: nat)
    requires start <= |text| && size >= 1
    ensures AllFollow(|text|, size, overlap, Windows(text, start, size, overlap))
    decreases |text| - start
  {
    if start < |text| {
      var next := NextStart(start, Cut(text, start, size, overlap), overlap);
      WindowsFollow(text, next, size, overlap);
      if next < |text| {
        FirstFollows(text, start, size, overlap);
        var ws := Windows(text, start, size, overlap);
        assert ws[1..] == Windows(text, next, size, overlap);
        Prepend(|text|, size, overlap, ws);
      }
    }
  }

  lemma {:induction false} Prepend(n: nat, size: nat, overlap: nat, ws: seq<Window>)
    requires |ws| >= 2 && Follows(n, size, overlap, ws[0], ws[1], |ws| == 2)
    requires AllFollow(n, size, overlap, ws[1..])
    ensures AllFollow(n, size, overlap, ws)
  {
  }

  lemma {:induction false} FirstFollows(text: string, start: nat, size: nat, overlap: nat)
    requires start < |text| && size >= 1
    requires NextStart(start, Cut(text, start, size, overlap), overlap) < |text|
    ensures var ws := Windows(text, start, size, overlap);
      |ws| >= 2 && Follows(|text|, size, overlap, ws[0], ws[1], |ws| == 2)
  {
    var end := Cut(text, start, size, overlap);
    var next := NextStart(start, end, overlap);
    var end2 := Cut(text, next, size, overlap);
    var rest := Windows(text, next, size, overlap);
    assert rest == [Window(next, end2)] + Windows(text, NextStart(next, end2, overlap), size, overlap);
    if size > overlap && end == |text| {
      assert end2 == |text| && NextStart(next, end2, overlap) == |text|;
      assert Windows(text, |text|, size, overlap) == [];
    }
  }

  ghost predicate SeparatorFree(text: string) {
    forall k, i :: 0 <= k < |SEPARATORS| ==> !Matches(text, SEPARATORS[k], i)
  }

  function Ceil(a: nat, b: nat): nat
    requires b > 0
  {
    (a + b - 1) / b
  }

  lemma {:induction false} CutPlain(text: string, start: nat, limit: nat, overlap: nat, seps: seq<string>)
    requires forall k, i :: 0 <= k < |seps| ==> !Matches(text, seps[k], i)
    ensures CutFrom(text, start, limit, overlap, seps) == limit
    decreases |seps|
  {
    if seps != [] {
      RFindFromIsLast(text, seps[0], start, limit - |seps[0]|);
      CutPlain(text, start, limit, overlap, seps[1..]);
    }
  }

  /** How many pieces of at most b make up a. */
  function Pieces(a: nat, b: nat): nat
    requires b > 0
  {
    if a <= b then 1 else 1 + Pieces(a - b, b)
  }

  lemma {:induction false} Multiple(x: int, b: nat)
    ensures x >= 0 ==> x * b >= 0
  {
  }

  lemma {:induction false} Quotient(a: nat, b: nat, q: nat, r: nat)
    requires b > 0 && r < b && a == q * b + r
    ensures a / b == q
  {
    var d := a / b - q;
    assert d * b == r - a % b;
    Multiple(d - 1, b);
    Multiple(-1 - d, b);
    assert (d - 1) * b == d * b - b && (-1 - d) * b == -(d * b) - b;
  }

  lemma {:induction false} PiecesIsCeil(a: nat, b: nat)
    requires b > 0 && a > 0
    ensures Pieces(a, b) == Ceil(a, b)
    decreases a
  {
    if a <= b {
      Quotient(a + b - 1, b, 1, a - 1);
    } else {
      PiecesIsCeil(a - b, b);
      var q := Ceil(a - b, b);
      Quotient(a + b - 1, b, q + 1, (a - 1) % b);
    }
  }

  lemma {:induction false} PlainCut(text: string, start: nat, size: nat, overlap: nat)
    requires SeparatorFree(text) && start < |text| && size >= 1
    ensures Cut(text, start, size, overlap) == Limit(|text|, start, size)
  {
    CutPlain(text, start, Limit(|text|, start, size), overlap, SEPARATORS);
  }

  /** The number of windows when every window has the full size. */
  function PlainCount(n: nat, start: nat, size: nat, overlap: nat): nat
    requires start <= n && size >= 1
    decreases n - start
  {
    if start == n then 0
    else 1 + PlainCount(n, NextStart(start, Limit(n, start, size), overlap), size, overlap)
  }

  lemma {:induction false} PlainWindows(text: string, start: nat, size: nat, overlap: nat)
    requires SeparatorFree(text) && start <= |text| && size >= 1
    ensures |Windows(text, start, size, overlap)| == PlainCount(|text|, start, size, overlap)
    decreases |text| - start
  {
    if start < |text| {
      PlainCut(text, start, size, overlap);
      PlainWindows(text, NextStart(start, Limit(|text|, start, size), overlap), size, overlap);
    }
  }

  lemma {:induction false} PlainCountIsPieces(n: nat, start: nat, size: nat, overlap: nat)
    requires size > overlap >= 1 && start + overlap < n
    ensures PlainCount(n, start, size, overlap) == Pieces(n - overlap - start, size - overlap) + 1
    decreases n - start
  {
    if n <= start + size {
      assert PlainCount(n, n - overlap, size, overlap) == 1;
    } else {
      PlainCountIsPieces(n, start + size - overlap, size, overlap);
    }
  }

  /** Without overlap, or with one that is not smaller than a chunk, windows lie end to end. */
  lemma {:induction false} PlainCountEndToEnd(n: nat, start: nat, size: nat, overlap: nat)
    requires size >= 1 && (overlap == 0 || size <= overlap) && start < n
    ensures PlainCount(n, start, size, overlap) == Pieces(n - start, size)
    decreases n - start
  {
    if start + size < n {
      PlainCountEndToEnd(n, start + size, size, overlap);
    }
  }

  /** The number of windows of a text of n characters without separators. */
  function PlainTotal(n: nat, size: nat, overlap: nat): nat
    requires size >= 1
  {
    if overlap == 0 || size <= overlap then Ceil(n, size)
    else if n == 0 then 0
    else if n <= overlap then 1
    else Ceil(n - overlap, size - overlap) + 1
  }

  /** A text without separators is cut into exactly ceil((n - overlap) / (size - overlap)) + 1 windows when
      the overlap is positive and smaller than both a chunk and the text; into one when the text is no
      longer than such an overlap; and into ceil(n / size) for every other overlap. */
  lemma {:induction false} PlainTextWindowCount(text: string, size: nat, overlap: nat)
    requires SeparatorFree(text) && size >= 1
    ensures |Windows(text, 0, size, overlap)| == PlainTotal(|text|, size, overlap)
  {
    var n := |text|;
    PlainWindows(text, 0, size, overlap);
    if n == 0 {
      Quotient(size - 1, size, 0, size - 1);
    } else if overlap == 0 || size <= overlap {
      PlainCountEndToEnd(n, 0, size, overlap);
      PiecesIsCeil(n, size);
    } else if n > overlap {
      PlainCountIsPieces(n, 0, size, overlap);
      PiecesIsCeil(n - overlap, size - overlap);
    }
  }

  // ---------------------------------------------------------------- nothing is lost

  /** The text of the windows without what each shares with the one before; `seen` is the end of the
      window before the first. */
  function Stitch(text: string, ws: seq<Window>, seen: nat): string
    requires Fit(ws, text)
  {
    if ws == [] then "" else
      var from := if ws[0].start < seen then seen else ws[0].start;
      (if from <= ws[0].end then text[from..ws[0].end] else "") + Stitch(text, ws[1..], ws[0].end)
  }

  lemma {:induction false} StitchStep(text: string, start: nat, end: nat, size: nat, overlap: nat, seen: nat)
    requires start < |text| && size >= 1 && end == Cut(text, start, size, overlap) && start <= seen <= end
    ensures Stitch(text, Windows(text, start, size, overlap), seen) ==
      text[seen..end] + Stitch(text, Windows(text, NextStart(start, end, overlap), size, overlap), end)
  {
  }

  lemma {:induction false} CutsAdvance(text: string, start: nat, size: nat, overlap: nat)
    requires start < |text| && size >= 1
    ensures var end := Cut(text, start, size, overlap);
      var next := NextStart(start, end, overlap);
      if next < |text| then end <= Cut(text, next, size, overlap) else end == |text|
  {
  }

  lemma {:induction false} Splice(text: string, i: nat, j: nat)
    requires i <= j <= |text|
    ensures text[i..j] + text[j..] == text[i..]
  {
  }

  lemma {:induction false} StitchFrom(text: string, start: nat, size: nat, overlap: nat, seen: nat)
    requires start <= seen <= |text| && size >= 1
    requires if start < |text| then seen <= Cut(text, start, size, overlap) else seen == |text|
    ensures Stitch(text, Windows(text, start, size, overlap), seen) == text[seen..]
    decreases |text| - start
  {
    if start < |text| {
      var end := Cut(text, start, size, overlap);
      StitchStep(text, start, end, size, overlap, seen);
      CutsAdvance(text, start, size, overlap);
      StitchFrom(text, NextStart(start, end, overlap), size, overlap, end);
      Splice(text, seen, end);
    }
  }

  /** Dropping what each window shares with the one before it and concatenating gives the text back. */
  lemma {:induction false} WindowsCoverText(text: string, size: nat, overlap: nat)
    requires size >= 1
    ensures Stitch(text, Windows(text, 0, size, overlap), 0) == text
  {
    StitchFrom(text, 0, size, overlap, 0);
    assert text[0..] == text;
  }

  lemma {:induction false} WindowAt(text: string, start: nat, size: nat, overlap: nat, p: nat) returns (i: nat)
    requires start <= p < |text| && size >= 1
    ensures var ws := Windows(text, start, size, overlap);
      i < |ws| && ws[i].start <= p < ws[i].end
    decreases |text| - start
  {
    var end := Cut(text, start, size, overlap);
    if p < end {
      i := 0;
    } else {
      i := WindowAt(text, NextStart(start, end, overlap), size, overlap, p);
      i := i + 1;
    }
  }

  lemma {:induction false} Emitted(text: string, ws: seq<Window>, i: nat)
    requires Fit(ws, text)
    requires i < |ws| && Strip(text[ws[i].start..ws[i].end]) != ""
    ensures TextChunk(Strip(text[ws[i].start..ws[i].end]), ws[i].start, ws[i].end) in Emit(text, ws)
    decreases |ws|
  {
    if i > 0 {
      Emitted(text, ws[1..], i - 1);
    }
  }

  /** The chunk of a window holds every non-whitespace character of the window. */
  lemma {:induction false} ChunkHolds(text: string, w: Window, p: nat) returns (c: TextChunk, a: nat)
    requires w.start <= p < w.end <= |text| && !IsSpace(text[p])
    ensures c == TextChunk(Strip(text[w.start..w.end]), w.start, w.end) && c.text != ""
    ensures w.start <= a <= p < a + |c.text| <= w.end && c.text == text[a..a + |c.text|]
  {
    var x, y := StripAt(text[w.start..w.end], p - w.start);
    c, a := TextChunk(Strip(text[w.start..w.end]), w.start, w.end), w.start + x;
    SliceOfSlice(text, w.start, w.end, x, y);
  }

  lemma {:induction false} SliceOfSlice(text: string, i: nat, j: nat, x: nat, y: nat)
    requires i <= j <= |text| && x <= y <= j - i
    ensures text[i..j][x..y] == text[i + x..i + y]
  {
    var a, b := text[i..j][x..y], text[i + x..i + y];
    forall m | 0 <= m < y - x ensures a[m] == b[m] {
      assert a[m] == text[i..j][x + m] == text[i + x + m];
    }
    assert |a| == |b|;
  }

  /** Every non-whitespace character of the normalised text lies in a chunk, whose text is the stripped
      text of its offsets and contains the character. */
  lemma {:induction false} InkIsChunked(text: string, size: nat, overlap: nat, p: nat) returns (c: TextChunk, a: nat)
    requires size >= 1 && p < |text| && !IsSpace(text[p])
    ensures c in Emit(text, Windows(text, 0, size, overlap))
    ensures c.start <= a <= p < a + |c.text| <= c.end <= |text|
    ensures c.text == Strip(text[c.start..c.end]) == text[a..a + |c.text|]
  {
    var ws := Windows(text, 0, size, overlap);
    var i := WindowAt(text, 0, size, overlap, p);
    c, a := ChunkHolds(text, ws[i], p);
    Emitted(text, ws, i);
  }

  predicate Rising(chosen: seq<nat>) {
    forall i, j :: 0 <= i < j < |chosen| ==> chosen[i] < chosen[j]
  }

  /** s is text[i..j], and what w has around it is blank. */
  predicate Within(text: string, w: Window, s: string, i: nat, j: nat)
    requires w.start < w.end <= |text|
  {
    w.start <= i <= j <= w.end && text[i..j] == s && Blank(text[w.start..i]) && Blank(text[j..w.end])
  }

  /** c is the stripped text of w, with the offsets of w. */
  ghost predicate IsChunkOf(text: string, c: TextChunk, w: Window)
    requires w.start < w.end <= |text|
  {
    && c.start == w.start && c.end == w.end && c.text != ""
    && !IsSpace(c.text[0]) && !IsSpace(c.text[|c.text| - 1])
    && exists i: nat, j: nat :: Within(text, w, c.text, i, j)
  }

  lemma {:induction false} StrippedWindow(text: string, w: Window)
    requires w.start < w.end <= |text| && Strip(text[w.start..w.end]) != ""
    ensures IsChunkOf(text, TextChunk(Strip(text[w.start..w.end]), w.start, w.end), w)
  {
    var all := text[w.start..w.end];
    var before, after := StripIsTight(all);
    ThreeParts(text, w.start, w.end, before, Strip(all), after);
    assert Within(text, w, Strip(all), w.start + |before|, w.start + |before| + |Strip(all)|);
  }

  lemma {:induction false} ThreeParts(text: string, i: nat, j: nat, a: string, b: string, c: string)
    requires i <= j <= |text| && text[i..j] == a + b + c
    ensures var m, n := i + |a|, i + |a| + |b|;
      i <= m <= n <= j && text[i..m] == a && text[m..n] == b && text[n..j] == c
  {
    var m, n := i + |a|, i + |a| + |b|;
    var all := a + b + c;
    assert |all| == j - i;
    assert all[..|a|] == a && all[|a|..|a| + |b|] == b && all[|a| + |b|..] == c;
    SliceOfSlice(text, i, j, 0, |a|);
    SliceOfSlice(text, i, j, |a|, |a| + |b|);
    SliceOfSlice(text, i, j, |a| + |b|, j - i);
  }

  function Concat(parts: seq<seq<TextChunk>>): seq<TextChunk> {
    if parts == [] then [] else Concat(parts[..|parts| - 1]) + parts[|parts| - 1]
  }

  lemma {:induction false} ConcatCons(part: seq<TextChunk>, rest: seq<seq<TextChunk>>)
    ensures Concat([part] + rest) == part + Concat(rest)
    decreases |rest|
  {
    var all := [part] + rest;
    if rest == [] {
      assert all[..0] == [];
    } else {
      var n := |rest| - 1;
      assert all[..n + 1] == [part] + rest[..n];
      ConcatCons(part, rest[..n]);
    }
  }

  function Parts(text: string, ws: seq<Window>): (parts: seq<seq<TextChunk>>)
    requires Fit(ws, text)
    ensures |parts| == |ws|
    ensures forall i :: 0 <= i < |ws| ==> parts[i] == ChunkAt(text, ws[i])
  {
    seq(|ws|, i requires 0 <= i < |ws| => ChunkAt(text, ws[i]))
  }

  lemma {:induction false} EmitIsConcat(text: string, ws: seq<Window>)
    requires Fit(ws, text)
    ensures Emit(text, ws) == Concat(Parts(text, ws))
  {
    if ws != [] {
      EmitIsConcat(text, ws[1..]);
      ConcatCons(ChunkAt(text, ws[0]), Parts(text, ws[1..]));
      assert Parts(text, ws) == [ChunkAt(text, ws[0])] + Parts(text, ws[1..]);
    }
  }

  /** Element j of the concatenation is part chosen[j], and the parts not chosen are empty. */
  predicate ChosenFrom(parts: seq<seq<TextChunk>>, all: seq<TextChunk>, chosen: seq<nat>) {
    && |chosen| == |all| && Rising(chosen)
    && (forall j :: 0 <= j < |chosen| ==> chosen[j] < |parts| && parts[chosen[j]] == [all[j]])
    && (forall i: nat :: i < |parts| ==> i in chosen || parts[i] == [])
  }

  lemma {:induction false} ChooseLast(
    parts: seq<seq<TextChunk>>, all: seq<TextChunk>, chosen: seq<nat>, c: TextChunk)
    requires ChosenFrom(parts, all, chosen)
    ensures ChosenFrom(parts + [[]], all, chosen)
    ensures ChosenFrom(parts + [[c]], all + [c], chosen + [|parts|])
  {
    var chosen' := chosen + [|parts|];
    forall i: nat | i < |parts| + 1 ensures i in chosen' || (parts + [[c]])[i] == [] {
      if i < |parts| {
        assert i in chosen || parts[i] == [];
        assert i in chosen ==> i in chosen';
      } else {
        assert chosen'[|chosen|] == i;
      }
    }
  }

  lemma {:induction false} ConcatChooses(parts: seq<seq<TextChunk>>) returns (chosen: seq<nat>)
    requires forall i :: 0 <= i < |parts| ==> |parts[i]| <= 1
    ensures ChosenFrom(parts, Concat(parts), chosen)
    decreases |parts|
  {
    chosen := [];
    if parts != [] {
      var n := |parts| - 1;
      var before, part := parts[..n], parts[n];
      chosen := ConcatChooses(before);
      assert parts == before + [part];
      if part == [] {
        ChooseLast(before, Concat(before), chosen, TextChunk("", 0, 0));
      } else {
        ChooseLast(before, Concat(before), chosen, part[0]);
        chosen := chosen + [n];
        assert part == [part[0]];
      }
    }
  }

  lemma {:induction false} EmitChooses(text: string, ws: seq<Window>) returns (chosen: seq<nat>)
    requires Fit(ws, text)
    ensures ChosenFrom(Parts(text, ws), Emit(text, ws), chosen)
  {
    EmitIsConcat(text, ws);
    chosen := ConcatChooses(Parts(text, ws));
  }

  /** The chunks are those of the windows that are not blank, one for each, in the order of the windows. */
  lemma {:induction false} ChunksAreWindows(text: string, ws: seq<Window>) returns (chosen: seq<nat>)
    requires Fit(ws, text)
    ensures var chunks := Emit(text, ws);
      && |chosen| == |chunks| && Rising(chosen)
      && (forall j :: 0 <= j < |chosen| ==> chosen[j] < |ws| && IsChunkOf(text, chunks[j], ws[chosen[j]]))
      && (forall i: nat :: i < |ws| && i !in chosen ==> Blank(text[ws[i].start..ws[i].end]))
  {
    chosen := EmitChooses(text, ws);
    forall j | 0 <= j < |chosen| ensures IsChunkOf(text, Emit(text, ws)[j], ws[chosen[j]]) {
      assert ChunkAt(text, ws[chosen[j]]) == [Emit(text, ws)[j]];
      StrippedWindow(text, ws[chosen[j]]);
    }
    forall i: nat | i < |ws| && i !in chosen ensures Blank(text[ws[i].start..ws[i].end]) {
      assert ChunkAt(text, ws[i]) == [];
      StripEmptyIffBlank(text[ws[i].start..ws[i].end]);
    }
  }

  lemma {:induction false} SingleSpacedPart(text: string, i: nat, j: nat)
    requires i < j <= |text| && SingleSpaced(text) && !IsSpace(text[i]) && !IsSpace(text[j - 1])
    ensures SingleSpaced(text[i..j])
  {
    var part := text[i..j];
    forall k | 0 <= k < |part| && IsSpace(part[k]) && part[k] != '\n'
      ensures part[k] == ' ' && 0 < k < |part| - 1 && !IsSpace(part[k - 1]) && !IsSpace(part[k + 1])
    {
      assert part[k] == text[i + k] && part[0] == text[i] && part[|part| - 1] == text[j - 1];
    }
  }

  /** In every chunk whitespace is normalised. */
  lemma {:induction false} ChunksAreSingleSpaced(raw: string, size: nat, overlap: nat)
    requires size >= 1
    ensures forall c :: c in ChunksOf(raw, size, overlap) ==> c.text != "" && SingleSpaced(c.text)
  {
    NormaliseSpacing(raw);
    EmittedSingleSpaced(Normalise(raw), Windows(Normalise(raw), 0, size, overlap));
  }

  lemma {:induction false} EmittedSingleSpaced(text: string, ws: seq<Window>)
    requires Fit(ws, text) && SingleSpaced(text)
    ensures forall c :: c in Emit(text, ws) ==> c.text != "" && SingleSpaced(c.text)
  {
    if ws != [] {
      EmittedSingleSpaced(text, ws[1..]);
      var chunk := Strip(text[ws[0].start..ws[0].end]);
      if chunk != "" {
        StrippedWindow(text, ws[0]);
        StrippedSingleSpaced(text, TextChunk(chunk, ws[0].start, ws[0].end), ws[0]);
      }
    }
  }

  lemma {:induction false} StrippedSingleSpaced(text: string, c: TextChunk, w: Window)
    requires w.start < w.end <= |text| && IsChunkOf(text, c, w) && SingleSpaced(text)
    ensures SingleSpaced(c.text)
  {
    var i: nat, j: nat :| Within(text, w, c.text, i, j);
    assert text[i] == c.text[0] && text[j - 1] == c.text[|c.text| - 1];
    SingleSpacedPart(text, i, j);
  }

  // ---------------------------------------------------------------- the caller's guards

  datatype Chunked = EmptyContent | NoChunks | Chunks(chunks: seq<TextChunk>)

  /** Content with any ink in it is cut into at least one chunk. */
  lemma {:induction false} InkYieldsChunks(content: string, size: nat, overlap: nat)
    requires size >= 1 && !Blank(content)
    ensures ChunksOf(content, size, overlap) != []
  {
    var text := Normalise(content);
    NormaliseKeepsInk(content);
    BlankHasNoInk(content);
    BlankHasNoInk(text);
    var p :| 0 <= p < |text| && !IsSpace(text[p]);
    var c, _ := InkIsChunked(text, size, overlap, p);
  }

  lemma {:induction false} StripKeepsInk(s: string)
    requires !Blank(s)
    ensures !Blank(Strip(s))
  {
    var i :| 0 <= i < |s| && !IsSpace(s[i]);
    var a, b := StripAt(s, i);
    assert Strip(s)[i - a] == s[i];
  }

  /** The content checks of a document create: blank content is refused, and the second guard, for
      content that yields no chunks, never fires. */
  method ChunkContent(request: string, size: nat, overlap: nat) returns (r: Chunked)
    requires size >= 1
    ensures !r.NoChunks?
    ensures r.EmptyContent? <==> Blank(request)
    ensures r.Chunks? ==> r.chunks == ChunksOf(Strip(request), size, overlap)
  {
    var content := Strip(request);
    StripEmptyIffBlank(request);
    if content == "" {
      return EmptyContent;
    }
    StripKeepsInk(request);
    InkYieldsChunks(content, size, overlap);
    var chunks := ChunkText(content, size, overlap);
    r := if chunks == [] then NoChunks else Chunked.Chunks(chunks);
  }
}
