/**
 * `splitTextIntoChunks`: overlapping windows over a normalised text, each ended if possible at a
 * paragraph or sentence break in its last two fifths.
 */
module Chunker {
  import opened Wrappers
  import opened Utf16
  import opened PageText
  import Json

  const DOT: Unit := 0x2E
  const DEFAULT_SIZE: nat := 1200
  const DEFAULT_OVERLAP: nat := 200

  datatype Method = Unknown | PdfText | Ocr

  /** `text` is what stands between `start` and `end`, trimmed. */
  datatype Chunk = Chunk(
    id: Text,
    index: nat,
    text: Text,
    start: nat,
    end: nat,
    page: Option<nat>,              // pageStart and pageEnd, always equal
    sourceSegmentIndex: nat,
    extractionMethod: Method,
    provenanceConfidence: Option<real>)

  predicate PairAt(text: Text, i: int, a: Unit, b: Unit) {
    0 <= i < |text| - 1 && text[i] == a && text[i + 1] == b
  }

  /** `text.lastIndexOf(ab, from)`, with -1 for no occurrence. */
  function LastIndexOf(text: Text, a: Unit, b: Unit, from: int): (r: int)
    ensures r == -1 || (PairAt(text, r, a, b) && r <= from)
    ensures forall i :: r < i <= from ==> !PairAt(text, i, a, b)
    decreases from + 1
  {
    if from < 0 then -1
    else if PairAt(text, from, a, b) then from
    else LastIndexOf(text, a, b, from - 1)
  }

  function Max(a: int, b: int): int {
    if a >= b then a else b
  }

  function Min(a: int, b: int): int {
    if a <= b then a else b
  }

  /** Where the window that starts at `start` ends. */
  function WindowEnd(text: Text, start: nat, chunkSize: nat): (end: nat)
    requires start < |text|
    ensures end <= |text| && start <= end <= start + chunkSize + 1
    ensures chunkSize >= 1 ==> start < end
  {
    var end := Min(start + chunkSize, |text|);
    if end < |text| then
      var preferred := Max(LastIndexOf(text, LF, LF, end), LastIndexOf(text, DOT, SPACE, end));
      if preferred > start + chunkSize * 3 / 5 then preferred + 1 else end
    else end
  }

  /** A paragraph or a sentence ends here. */
  predicate IsBreak(text: Text, i: int) {
    0 <= i && i + 1 < |text| && ((text[i] == LF && text[i + 1] == LF) || (text[i] == DOT && text[i + 1] == SPACE))
  }

  /**
   * A window that does not reach the end of the text ends behind the last break in its last two fifths, and
   * where its size says if there is none.
   */
  lemma WindowSeeksBreak(text: Text, start: nat, chunkSize: nat)
    requires start < |text|
    ensures var end, size := WindowEnd(text, start, chunkSize), start + chunkSize;
            if size >= |text| then end == |text|
            else if exists i :: start + chunkSize * 3 / 5 < i <= size && IsBreak(text, i) then
              start + chunkSize * 3 / 5 < end - 1 <= size && IsBreak(text, end - 1) && forall i :: end - 1 < i <= size ==> !IsBreak(text, i)
            else end == size
  {
    var size := start + chunkSize;
    if size < |text| {
      assert forall i :: IsBreak(text, i) <==> PairAt(text, i, LF, LF) || PairAt(text, i, DOT, SPACE);
    }
  }

  datatype Window = Window(start: nat, end: nat)

  function NextStart(start: nat, end: nat, overlap: nat): nat {
    Max(end - overlap, start + 1)
  }

  function Windows(text: Text, start: nat, chunkSize: nat, overlap: nat): seq<Window>
    decreases |text| - start
  {
    if start >= |text| then []
    else
      var end := WindowEnd(text, start, chunkSize);
      [Window(start, end)] + if end >= |text| then [] else Windows(text, NextStart(start, end, overlap), chunkSize, overlap)
  }

  /** `text.slice(start, end)`. */
  function Slice(text: Text, start: nat, end: nat): Text {
    if start <= end <= |text| then text[start..end] else []
  }

  function ChunkAt(text: Text, w: Window, index: nat): Chunk {
    Chunk(Json.Digits(index), index, Trim(Slice(text, w.start, w.end)), w.start, w.end, None, index, Unknown, None)
  }

  /** Blank windows give no chunk and use up no index. */
  function Emitted(text: Text, windows: seq<Window>, index: nat): seq<Chunk> {
    if windows == [] then []
    else if Trim(Slice(text, windows[0].start, windows[0].end)) == [] then Emitted(text, windows[1..], index)
    else [ChunkAt(text, windows[0], index)] + Emitted(text, windows[1..], index + 1)
  }

  function Chunks(sourceText: Text, chunkSize: nat, overlap: nat): seq<Chunk> {
    var text := Normalize(sourceText);
    Emitted(text, Windows(text, 0, chunkSize, overlap), 0)
  }

  /** What is emitted from `start` on; nothing once the end is reached. */
  function Remaining(text: Text, start: nat, chunkSize: nat, overlap: nat, index: nat): seq<Chunk> {
    Emitted(text, Windows(text, start, chunkSize, overlap), index)
  }

  /** One turn of the loop: the window's chunk, if any, and then what is left. */
  lemma RemainingStep(text: Text, start: nat, end: nat, after: nat, chunkSize: nat, overlap: nat, index: nat, first: seq<Chunk>, next: nat)
    requires start < |text| && end == WindowEnd(text, start, chunkSize)
    requires after == if end >= |text| then |text| else NextStart(start, end, overlap)
    requires if Trim(Slice(text, start, end)) == [] then first == [] && next == index
             else first == [ChunkAt(text, Window(start, end), index)] && next == index + 1
    ensures Remaining(text, start, chunkSize, overlap, index) == first + Remaining(text, after, chunkSize, overlap, next)
  {
    var windows := Windows(text, start, chunkSize, overlap);
    assert windows[0] == Window(start, end);
    assert windows[1..] == Windows(text, after, chunkSize, overlap);
  }

  lemma MoveFirst(before: seq<Chunk>, first: seq<Chunk>, rest: seq<Chunk>)
    ensures before + (first + rest) == before + first + rest
  {
  }

  /** The middle of the loop body: pushes the window's chunk unless it is blank. */
  method PushChunk(text: Text, start: nat, end: nat, index: nat, chunks: seq<Chunk>)
    returns (more: seq<Chunk>, next: nat, ghost first: seq<Chunk>)
    ensures more == chunks + first
    ensures if Trim(Slice(text, start, end)) == [] then first == [] && next == index
            else first == [ChunkAt(text, Window(start, end), index)] && next == index + 1
  {
    var chunkText := Trim(Slice(text, start, end));
    more, next, first := chunks, index, [];
    if chunkText != [] {
      first := [Chunk(Json.Digits(index), index, chunkText, start, end, None, index, Unknown, None)];
      more := chunks + [Chunk(Json.Digits(index), index, chunkText, start, end, None, index, Unknown, None)];
      next := index + 1;
    }
  }

  /** The loop body; after the last window `start` stands at the end of the text. */
  method LoopBody(text: Text, start: nat, index: nat, chunkSize: nat, overlap: nat, chunks: seq<Chunk>)
    returns (after: nat, next: nat, more: seq<Chunk>)
    requires start < |text|
    ensures start < after <= |text|
    ensures chunks + Remaining(text, start, chunkSize, overlap, index) == more + Remaining(text, after, chunkSize, overlap, next)
  {
    var end := BreakSeekingEnd(text, start, chunkSize);
    ghost var first;
    more, next, first := PushChunk(text, start, end, index, chunks);
    after := if end >= |text| then |text| else Max(end - overlap, start + 1);
    RemainingStep(text, start, end, after, chunkSize, overlap, index, first, next);
    MoveFirst(chunks, first, Remaining(text, after, chunkSize, overlap, next));
  }

  method SplitNormalizedText(text: Text, chunkSize: nat, overlap: nat) returns (chunks: seq<Chunk>)
    ensures chunks == Remaining(text, 0, chunkSize, overlap, 0)
  {
    chunks := [];
    var start: nat := 0;
    var index: nat := 0;
    ghost var all := Remaining(text, 0, chunkSize, overlap, 0);
    assert [] + all == all;
    while start < |text|
      invariant start <= |text|
      invariant all == chunks + Remaining(text, start, chunkSize, overlap, index)
      decreases |text| - start
    {
      start, index, chunks := LoopBody(text, start, index, chunkSize, overlap, chunks);
    }
    assert Remaining(text, start, chunkSize, overlap, index) == [];
    assert chunks + [] == chunks;
  }

  method SplitTextIntoChunks(sourceText: Text, chunkSize: nat, overlap: nat) returns (chunks: seq<Chunk>)
    ensures chunks == Chunks(sourceText, chunkSize, overlap)
  {
    var text := Normalize(sourceText);
    if text == [] {
      return [];
    }
    chunks := SplitNormalizedText(text, chunkSize, overlap);
  }

  /** The first part of the loop body. */
  method BreakSeekingEnd(text: Text, start: nat, chunkSize: nat) returns (end: nat)
    requires start < |text|
    ensures end == WindowEnd(text, start, chunkSize)
  {
    end := Min(start + chunkSize, |text|);
    if end < |text| {
      var paragraphBreak := LastIndexOf(text, LF, LF, end);
      var sentenceBreak := LastIndexOf(text, DOT, SPACE, end);
      var preferredBreak := Max(paragraphBreak, sentenceBreak);
      if preferredBreak > start + chunkSize * 3 / 5 {
        end := preferredBreak + 1;
      }
    }
  }

  // ----- the windows leave no gap -----

  /** Each window starts after the one before it, and not behind its end. */
  predicate Chained(windows: seq<Window>) {
    forall k :: 0 <= k < |windows| - 1 ==> windows[k].start < windows[k + 1].start <= windows[k].end
  }

  lemma {:induction false} WindowsChained(text: Text, start: nat, chunkSize: nat, overlap: nat)
    requires chunkSize >= 1
    ensures Chained(Windows(text, start, chunkSize, overlap))
    ensures forall w :: w in Windows(text, start, chunkSize, overlap) ==> 1 <= w.end - w.start <= chunkSize + 1
    decreases |text| - start
  {
    if start < |text| {
      var end := WindowEnd(text, start, chunkSize);
      if end < |text| {
        WindowsChained(text, NextStart(start, end, overlap), chunkSize, overlap);
      }
    }
  }

  /** Appends to `sofar` what a window shows beyond it. */
  function Rebuild(text: Text, windows: seq<Window>, sofar: Text): Text
  {
    if windows == [] then sofar
    else
      var w := windows[0];
      var slice := Slice(text, w.start, w.end);
      var seen := |sofar| - w.start;
      Rebuild(text, windows[1..], sofar + if 0 <= seen <= |slice| then slice[seen..] else [])
  }

  lemma {:induction false} RebuildsRest(text: Text, start: nat, chunkSize: nat, overlap: nat, covered: nat)
    requires chunkSize >= 1 && start <= covered <= |text|
    ensures start < |text| ==> Rebuild(text, Windows(text, start, chunkSize, overlap), text[..covered]) == text
    decreases |text| - start
  {
    if start < |text| {
      var windows := Windows(text, start, chunkSize, overlap);
      var end := WindowEnd(text, start, chunkSize);
      var more := Max(covered, end);
      var slice := Slice(text, start, end);
      assert text[..covered] + (if covered - start <= |slice| then slice[covered - start..] else []) == text[..more];
      if end >= |text| {
        assert windows[1..] == [];
        assert text[..more] == text;
      } else {
        assert windows[1..] == Windows(text, NextStart(start, end, overlap), chunkSize, overlap);
        RebuildsRest(text, NextStart(start, end, overlap), chunkSize, overlap, more);
      }
    }
  }

  /** Dropping what consecutive windows share rebuilds the whole text, whatever the size and overlap. */
  lemma WindowsRebuildText(text: Text, chunkSize: nat, overlap: nat)
    requires chunkSize >= 1
    ensures Rebuild(text, Windows(text, 0, chunkSize, overlap), []) == text
  {
    if text != [] {
      RebuildsRest(text, 0, chunkSize, overlap, 0);
      assert text[..0] == [];
    }
  }

  /** Some window holds position i. */
  predicate Covers(windows: seq<Window>, i: nat) {
    exists w :: w in windows && w.start <= i < w.end
  }

  lemma {:induction false} WindowsCover(text: Text, start: nat, chunkSize: nat, overlap: nat, i: nat)
    requires chunkSize >= 1 && start <= i < |text|
    ensures Covers(Windows(text, start, chunkSize, overlap), i)
    decreases |text| - start
  {
    var windows := Windows(text, start, chunkSize, overlap);
    var end := WindowEnd(text, start, chunkSize);
    if i < end {
      assert windows[0] in windows && windows[0].start <= i < windows[0].end;
    } else {
      var rest := Windows(text, NextStart(start, end, overlap), chunkSize, overlap);
      WindowsCover(text, NextStart(start, end, overlap), chunkSize, overlap, i);
      var w :| w in rest && w.start <= i < w.end;
      assert w in windows;
    }
  }

  // ----- what is emitted -----

  /** The chunk at position k of the result. */
  predicate ChunkOk(text: Text, c: Chunk, index: nat) {
    c.index == index && c.id == Json.Digits(index) && c.sourceSegmentIndex == index &&
    c.start <= c.end <= |text| && c.text == Trim(Slice(text, c.start, c.end)) && c.text != []
  }

  predicate Inside(text: Text, windows: seq<Window>) {
    forall w :: w in windows ==> w.start <= w.end <= |text|
  }

  lemma {:induction false} WindowsInside(text: Text, start: nat, chunkSize: nat, overlap: nat)
    ensures Inside(text, Windows(text, start, chunkSize, overlap))
    decreases |text| - start
  {
    if start < |text| {
      var end := WindowEnd(text, start, chunkSize);
      if end < |text| {
        WindowsInside(text, NextStart(start, end, overlap), chunkSize, overlap);
      }
    }
  }

  lemma {:induction false} NoMoreThanWindows(text: Text, windows: seq<Window>, index: nat)
    requires Inside(text, windows)
    ensures |Emitted(text, windows, index)| <= |windows|
  {
    if windows != [] {
      assert windows[0] in windows && forall v :: v in windows[1..] ==> v in windows;
      NoMoreThanWindows(text, windows[1..], index);
      NoMoreThanWindows(text, windows[1..], index + 1);
    }
  }

  lemma ChunkAtOk(text: Text, w: Window, index: nat)
    requires w.start <= w.end <= |text| && Trim(Slice(text, w.start, w.end)) != []
    ensures ChunkOk(text, ChunkAt(text, w, index), index)
  {
  }

  /** The k-th chunk stands for some window. */
  lemma {:induction false} EmittedFrom(text: Text, windows: seq<Window>, index: nat, k: nat) returns (w: Window)
    requires k < |Emitted(text, windows, index)|
    ensures w in windows && Trim(Slice(text, w.start, w.end)) != [] && Emitted(text, windows, index)[k] == ChunkAt(text, w, index + k)
  {
    if Trim(Slice(text, windows[0].start, windows[0].end)) == [] {
      w := EmittedFrom(text, windows[1..], index, k);
    } else if k > 0 {
      w := EmittedFrom(text, windows[1..], index + 1, k - 1);
    } else {
      w := windows[0];
    }
  }

  lemma EmittedOk(text: Text, windows: seq<Window>, index: nat, k: nat)
    requires Inside(text, windows) && k < |Emitted(text, windows, index)|
    ensures ChunkOk(text, Emitted(text, windows, index)[k], index + k)
  {
    var w := EmittedFrom(text, windows, index, k);
    ChunkAtOk(text, w, index + k);
  }

  /** Some chunk stands for the window. */
  predicate Shown(cs: seq<Chunk>, w: Window) {
    exists k :: 0 <= k < |cs| && cs[k].start == w.start && cs[k].end == w.end
  }

  lemma ShownLater(c: Chunk, rest: seq<Chunk>, w: Window)
    requires Shown(rest, w)
    ensures Shown([c] + rest, w)
  {
    var k :| 0 <= k < |rest| && rest[k].start == w.start && rest[k].end == w.end;
    assert ([c] + rest)[k + 1] == rest[k];
  }

  lemma {:induction false} VisibleIsShown(text: Text, windows: seq<Window>, index: nat, w: Window)
    requires w in windows && Trim(Slice(text, w.start, w.end)) != []
    ensures Shown(Emitted(text, windows, index), w)
  {
    var first := windows[0];
    if Trim(Slice(text, first.start, first.end)) == [] {
      VisibleIsShown(text, windows[1..], index, w);
    } else if first == w {
      assert Emitted(text, windows, index)[0] == ChunkAt(text, first, index);
    } else {
      VisibleIsShown(text, windows[1..], index + 1, w);
      ShownLater(ChunkAt(text, first, index), Emitted(text, windows[1..], index + 1), w);
    }
  }

  lemma TrimmedAwayIsBlank(s: Text)
    requires Trim(s) == []
    ensures AllSpace(s)
  {
    var lead, tail := TrimSplits(s);
    assert s == lead + tail;
  }

  /** Every chunk is a trimmed slice numbered by its position, and every visible character is in some chunk. */
  lemma ChunksCoverText(sourceText: Text, chunkSize: nat, overlap: nat)
    requires chunkSize >= 1
    ensures var text := Normalize(sourceText);
            var cs := Chunks(sourceText, chunkSize, overlap);
            (forall k :: 0 <= k < |cs| ==> ChunkOk(text, cs[k], k)) &&
            (forall i :: 0 <= i < |text| && !IsSpace(text[i]) ==> exists k :: 0 <= k < |cs| && cs[k].start <= i < cs[k].end)
  {
    var text := Normalize(sourceText);
    var windows := Windows(text, 0, chunkSize, overlap);
    var cs := Chunks(sourceText, chunkSize, overlap);
    WindowsInside(text, 0, chunkSize, overlap);
    forall k | 0 <= k < |cs|
      ensures ChunkOk(text, cs[k], k)
    {
      EmittedOk(text, windows, 0, k);
    }
    forall i | 0 <= i < |text| && !IsSpace(text[i])
      ensures exists k :: 0 <= k < |cs| && cs[k].start <= i < cs[k].end
    {
      WindowsCover(text, 0, chunkSize, overlap, i);
      var w :| w in windows && w.start <= i < w.end;
      assert Slice(text, w.start, w.end)[i - w.start] == text[i];
      if Trim(Slice(text, w.start, w.end)) == [] {
        TrimmedAwayIsBlank(Slice(text, w.start, w.end));
      }
      VisibleIsShown(text, windows, 0, w);
    }
  }

  // ----- how fast the default windows advance -----

  lemma DefaultAdvance(text: Text, start: nat)
    requires start < |text|
    ensures var end := WindowEnd(text, start, DEFAULT_SIZE);
            end < |text| ==> NextStart(start, end, DEFAULT_OVERLAP) >= start + 522
  {
  }

  lemma {:induction false} DefaultWindowCount(text: Text, start: nat)
    ensures 522 * |Windows(text, start, DEFAULT_SIZE, DEFAULT_OVERLAP)| <= Max(|text| - start, 0) + 521
    decreases |text| - start
  {
    if start < |text| {
      var end := WindowEnd(text, start, DEFAULT_SIZE);
      DefaultAdvance(text, start);
      if end < |text| {
        DefaultWindowCount(text, NextStart(start, end, DEFAULT_OVERLAP));
      }
    }
  }

  /** With the defaults there are at most ⌈length / 522⌉ chunks. */
  lemma DefaultChunkCount(sourceText: Text)
    ensures |Chunks(sourceText, DEFAULT_SIZE, DEFAULT_OVERLAP)| <= (|Normalize(sourceText)| + 521) / 522
  {
    var text := Normalize(sourceText);
    WindowsInside(text, 0, DEFAULT_SIZE, DEFAULT_OVERLAP);
    NoMoreThanWindows(text, Windows(text, 0, DEFAULT_SIZE, DEFAULT_OVERLAP), 0);
    DefaultWindowCount(text, 0);
  }
}
