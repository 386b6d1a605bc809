/**
 * `splitPagesIntoChunks`: pages are normalised, joined with a blank line, and chunked one by one;
 * the chunks' offsets are then moved to the joined text.  They are right only because chunking
 * normalises each page again and finds nothing left to change.
 */
module PageChunks {
  import opened Wrappers
  import opened Utf16
  import opened PageText
  import opened Chunker
  import Json

  const SEPARATOR: Text := [LF, LF]

  function NormalizePages(pages: seq<Text>): (r: seq<Text>)
    ensures |r| == |pages|
    ensures forall i :: 0 <= i < |pages| ==> r[i] == Normalize(pages[i])
  {
    seq(|pages|, i requires 0 <= i < |pages| => Normalize(pages[i]))
  }

  /** `pages.join('\n\n')`. */
  function Join(pages: seq<Text>): Text {
    if pages == [] then []
    else if |pages| == 1 then pages[0]
    else pages[0] + SEPARATOR + Join(pages[1..])
  }

  /** Where page k starts in the joined text. */
  function PageOffset(pages: seq<Text>, k: nat): nat
    requires k <= |pages|
  {
    if k == 0 then 0 else PageOffset(pages, k - 1) + |pages[k - 1]| + (if k < |pages| then 2 else 0)
  }

  function Confidence(how: Method): real {
    if how == PdfText then 1.0 else 0.8
  }

  function Moved(c: Chunk, index: nat, offset: nat, page: nat, how: Method): Chunk {
    Chunk(Json.Digits(index), index, c.text, c.start + offset, c.end + offset, Some(page + 1), c.index, how, Some(Confidence(how)))
  }

  /** The chunks of one page, numbered from `index`. */
  function MovedAll(cs: seq<Chunk>, index: nat, offset: nat, page: nat, how: Method): (r: seq<Chunk>)
    ensures |r| == |cs| && forall k :: 0 <= k < |cs| ==> r[k] == Moved(cs[k], index + k, offset, page, how)
  {
    seq(|cs|, k requires 0 <= k < |cs| => Moved(cs[k], index + k, offset, page, how))
  }

  /** The chunks of the first k pages, from the chunks each page has on its own. */
  function Collected(pages: seq<Text>, own: seq<seq<Chunk>>, k: nat, how: Method): seq<Chunk>
    requires k <= |pages| == |own|
  {
    if k == 0 then []
    else
      var before := Collected(pages, own, k - 1, how);
      before + MovedAll(own[k - 1], |before|, PageOffset(pages, k - 1), k - 1, how)
  }

  function OwnChunks(pages: seq<Text>): (r: seq<seq<Chunk>>)
    ensures |r| == |pages| && forall i :: 0 <= i < |pages| ==> r[i] == Chunks(pages[i], DEFAULT_SIZE, DEFAULT_OVERLAP)
  {
    seq(|pages|, i requires 0 <= i < |pages| => Chunks(pages[i], DEFAULT_SIZE, DEFAULT_OVERLAP))
  }

  function PagedChunks(pages: seq<Text>, how: Method): seq<Chunk> {
    Collected(pages, OwnChunks(pages), |pages|, how)
  }

  /** The inner loop: pushes one page's chunks behind those already there. */
  method PushPage(before: seq<Chunk>, pageChunks: seq<Chunk>, offset: nat, pageIndex: nat, extractionMethod: Method) returns (chunks: seq<Chunk>)
    requires extractionMethod != Unknown
    ensures chunks == before + MovedAll(pageChunks, |before|, offset, pageIndex, extractionMethod)
  {
    chunks := before;
    ghost var moved := MovedAll(pageChunks, |before|, offset, pageIndex, extractionMethod);
    for k := 0 to |pageChunks|
      invariant chunks == before + moved[..k]
    {
      var index := |chunks|;
      var c := pageChunks[k];
      chunks := chunks + [Chunk(Json.Digits(index), index, c.text, c.start + offset, c.end + offset, Some(pageIndex + 1), c.index,
                                extractionMethod, Some(if extractionMethod == PdfText then 1.0 else 0.8))];
      assert moved[..k + 1] == moved[..k] + [moved[k]];
    }
  }

  method SplitPagesIntoChunks(pageTexts: seq<Text>, extractionMethod: Method) returns (text: Text, chunks: seq<Chunk>)
    requires extractionMethod != Unknown
    ensures text == Join(NormalizePages(pageTexts))
    ensures chunks == PagedChunks(NormalizePages(pageTexts), extractionMethod)
  {
    var normalizedPages := NormalizePages(pageTexts);
    text := Join(normalizedPages);
    chunks := [];
    var offset: nat := 0;
    for pageIndex := 0 to |normalizedPages|
      invariant offset == PageOffset(normalizedPages, pageIndex)
      invariant chunks == Collected(normalizedPages, OwnChunks(normalizedPages), pageIndex, extractionMethod)
    {
      var pageText := normalizedPages[pageIndex];
      var pageChunks := SplitTextIntoChunks(pageText, DEFAULT_SIZE, DEFAULT_OVERLAP);
      chunks := PushPage(chunks, pageChunks, offset, pageIndex, extractionMethod);
      offset := offset + |pageText| + if pageIndex < |normalizedPages| - 1 then 2 else 0;
    }
  }

  // ----- the joined text shows each page at its offset -----

  lemma {:induction false} OffsetOfTail(pages: seq<Text>, k: nat)
    requires 1 <= k < |pages|
    ensures PageOffset(pages, k) == |pages[0]| + 2 + PageOffset(pages[1..], k - 1)
  {
    if k > 1 {
      OffsetOfTail(pages, k - 1);
    }
  }

  lemma {:induction false} JoinShowsPage(pages: seq<Text>, k: nat)
    requires k < |pages|
    ensures var at := PageOffset(pages, k); at + |pages[k]| <= |Join(pages)| && Join(pages)[at..at + |pages[k]|] == pages[k]
  {
    if |pages| > 1 && k > 0 {
      JoinShowsPage(pages[1..], k - 1);
      OffsetOfTail(pages, k);
      var head := pages[0] + SEPARATOR;
      var at := PageOffset(pages[1..], k - 1);
      assert Join(pages)[|head| + at..|head| + at + |pages[k]|] == Join(pages[1..])[at..at + |pages[k]|];
    }
  }

  // ----- the chunks are right -----

  /** The chunk lies inside its own page's span, and is a trimmed slice of the joined text. */
  predicate InPage(pages: seq<Text>, text: Text, c: Chunk) {
    c.text != [] && c.page.Some? && 1 <= c.page.value <= |pages| &&
    var page := c.page.value - 1;
    PageOffset(pages, page) <= c.start <= c.end <= PageOffset(pages, page) + |pages[page]| && c.end <= |text| &&
    Trim(text[c.start..c.end]) == c.text
  }

  /** Index and id are the position, and the provenance is the extraction's. */
  predicate Numbered(c: Chunk, k: nat, how: Method) {
    c.index == k && c.id == Json.Digits(k) && c.extractionMethod == how &&
    c.provenanceConfidence == Some(if how == PdfText then 1.0 else 0.8)
  }

  lemma SliceInPage(text: Text, page: Text, at: nat, start: nat, end: nat)
    requires at + |page| <= |text| && text[at..at + |page|] == page && start <= end <= |page|
    ensures text[at + start..at + end] == page[start..end]
  {
    forall i | 0 <= i < end - start
      ensures text[at + start..at + end][i] == page[start..end][i]
    {
      assert text[at..at + |page|][start + i] == page[start + i];
    }
  }

  lemma MovedInPage(pages: seq<Text>, text: Text, k: nat, c: Chunk, index: nat, how: Method)
    requires k < |pages| && ChunkOk(pages[k], c, c.index)
    requires var at := PageOffset(pages, k); at + |pages[k]| <= |text| && text[at..at + |pages[k]|] == pages[k]
    ensures InPage(pages, text, Moved(c, index, PageOffset(pages, k), k, how))
  {
    SliceInPage(text, pages[k], PageOffset(pages, k), c.start, c.end);
  }

  /** Every chunk of the result is the moved chunk j of some page k. */
  lemma {:induction false} Origin(pages: seq<Text>, own: seq<seq<Chunk>>, n: nat, i: nat, how: Method) returns (k: nat, j: nat)
    requires n <= |pages| == |own| && i < |Collected(pages, own, n, how)|
    ensures k < n && j < |own[k]|
    ensures Collected(pages, own, n, how)[i] == Moved(own[k][j], i, PageOffset(pages, k), k, how)
  {
    var before := Collected(pages, own, n - 1, how);
    if i < |before| {
      k, j := Origin(pages, own, n - 1, i, how);
    } else {
      k, j := n - 1, i - |before|;
    }
  }

  lemma StablePageChunk(page: Text, j: nat)
    requires Normalize(page) == page && j < |Chunks(page, DEFAULT_SIZE, DEFAULT_OVERLAP)|
    ensures var c := Chunks(page, DEFAULT_SIZE, DEFAULT_OVERLAP)[j]; ChunkOk(page, c, c.index)
  {
    ChunksCoverText(page, DEFAULT_SIZE, DEFAULT_OVERLAP);
  }

  /**
   * For pages without CR CR LF inside: each chunk is numbered by its position, lies in its own
   * page, and its text is what the joined text shows between its offsets.
   */
  lemma OffsetsAreRight(pageTexts: seq<Text>, i: nat, how: Method)
    requires forall k :: 0 <= k < |pageTexts| ==> !HasCrCrLf(Trim(pageTexts[k]))
    requires i < |PagedChunks(NormalizePages(pageTexts), how)|
    ensures var pages := NormalizePages(pageTexts);
            var c := PagedChunks(pages, how)[i];
            InPage(pages, Join(pages), c) && Numbered(c, i, how)
  {
    var pages := NormalizePages(pageTexts);
    var own := OwnChunks(pages);
    var k, j := Origin(pages, own, |pages|, i, how);
    NormalizeIdempotentIff(pageTexts[k]);
    StablePageChunk(pages[k], j);
    JoinShowsPage(pages, k);
    MovedInPage(pages, Join(pages), k, own[k][j], i, how);
  }

  /** The chunks of a page reach the end of its span in the joined text. */
  predicate ReachesEnd(page: Text) {
    exists k :: 0 <= k < |Chunks(page, DEFAULT_SIZE, DEFAULT_OVERLAP)| && Chunks(page, DEFAULT_SIZE, DEFAULT_OVERLAP)[k].end == |page|
  }

  lemma NormalizeTwiceShorter(page: Text)
    ensures Normalize(Normalize(page)) != Normalize(page) ==> |Normalize(Normalize(page))| < |Normalize(page)|
  {
    var m := Trim(page);
    var q := Normalize(page);
    NormalizeTrimmed(page);
    CollapseGivesSingles(UnixBreaks(m));
    LimitKeepsSingles(CollapseBlanks(UnixBreaks(m)));
    NormalizeTrimmed(q);
    TrimOf([], q, []);
    assert [] + q + [] == q;
    UnixBreaksStays(q);
    SqueezedStays(q);
    LaterShrink(UnixBreaks(q));
    LaterShrink(CollapseBlanks(UnixBreaks(q)));
  }

  lemma StablePageReachesEnd(q: Text)
    requires q != [] && Trimmed(q) && Normalize(q) == q
    ensures ReachesEnd(q)
  {
    ChunksCoverText(q, DEFAULT_SIZE, DEFAULT_OVERLAP);
    var cs := Chunks(q, DEFAULT_SIZE, DEFAULT_OVERLAP);
    var i: nat := |q| - 1;
    var k :| 0 <= k < |cs| && cs[k].start <= i < cs[k].end;
    assert cs[k].end == |q|;
  }

  lemma ShorterPageDoesNot(q: Text)
    requires |Normalize(q)| < |q|
    ensures !ReachesEnd(q)
  {
    ChunksCoverText(q, DEFAULT_SIZE, DEFAULT_OVERLAP);
  }

  /** And that condition is exact: with a CR CR LF inside, a page's chunks miss the end of its span. */
  lemma PageCoveredIff(page: Text)
    requires Normalize(page) != []
    ensures ReachesEnd(Normalize(page)) <==> !HasCrCrLf(Trim(page))
  {
    NormalizeIdempotentIff(page);
    NormalizeTwiceShorter(page);
    NormalizeTrimmed(page);
    if Normalize(Normalize(page)) == Normalize(page) {
      StablePageReachesEnd(Normalize(page));
    } else {
      ShorterPageDoesNot(Normalize(page));
    }
  }
}
