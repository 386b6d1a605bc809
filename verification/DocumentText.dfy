/**
 * `normalizeDocumentText`, which every page passes before chunking: it leaves no carriage return,
 * so the chunk offsets of a document are always right.
 *
 * The steps in their order: Unicode normalisation, dropping NUL, turning every CR LF and CR into a
 * line feed, collapsing other white space, removing spaces around line feeds, limiting runs of line
 * feeds, trimming, and cutting at the maximum length.  Unicode normalisation is an arbitrary
 * function here: it comes first, and nothing is asked of it.
 *
 * Only the third step matters for the result; what follows adds no carriage return, and a cut or
 * trimmed text has none that the text had not.
 */
module DocumentText {
  import opened Utf16
  import opened PageText
  import opened Chunker
  import opened PageChunks

  const FORM_FEED: Unit := 0x0C

  /** Removes NUL. */
  function DropNul(s: Text): Text {
    if s == [] then [] else (if s[0] == 0 then [] else [s[0]]) + DropNul(s[1..])
  }

  /** /\r\n?/ becomes \n. */
  function AllBreaks(s: Text): Text {
    if s == [] then []
    else if s[0] == CR then [LF] + AllBreaks(if |s| >= 2 && s[1] == LF then s[2..] else s[1..])
    else [s[0]] + AllBreaks(s[1..])
  }

  /** White space other than \n and \f. */
  predicate IsInline(u: Unit) {
    IsSpace(u) && u != LF && u != FORM_FEED
  }

  /** A maximal run of inline white space becomes one space. */
  function CollapseInline(s: Text): Text {
    if s == [] then []
    else if !IsInline(s[0]) then [s[0]] + CollapseInline(s[1..])
    else if |s| >= 2 && IsInline(s[1]) then CollapseInline(s[1..])
    else [SPACE] + CollapseInline(s[1..])
  }

  function SkipSpaces(s: Text): (r: Text)
    ensures |r| <= |s| && r == s[|s| - |r|..]
  {
    if s != [] && s[0] == SPACE then SkipSpaces(s[1..]) else s
  }

  // A line feed with the spaces around it becomes a line feed.
  function TightBreaks(s: Text): Text
    decreases |s|
  {
    if s == [] then []
    else if s[0] == LF then [LF] + TightBreaks(SkipSpaces(s[1..]))
    else if s[0] == SPACE && SkipSpaces(s) != [] && SkipSpaces(s)[0] == LF then
      [LF] + TightBreaks(SkipSpaces(SkipSpaces(s)[1..]))
    else [s[0]] + TightBreaks(s[1..])
  }

  /** Four or more line feeds become three. */
  function LimitBreaks4(s: Text): Text {
    if s == [] then []
    else if |s| >= 4 && s[0] == LF && s[1] == LF && s[2] == LF && s[3] == LF then LimitBreaks4(s[1..])
    else [s[0]] + LimitBreaks4(s[1..])
  }

  /** The text before it is cut. */
  function Uncut(text: Text): Text {
    Trim(LimitBreaks4(TightBreaks(CollapseInline(AllBreaks(DropNul(text))))))
  }

  function NormalizeDocumentText(text: Text, maximum: nat, nfc: Text -> Text): Text {
    var trimmed := Uncut(nfc(text));
    if |trimmed| <= maximum then trimmed else trimmed[..maximum]
  }

  lemma {:induction false} AllBreaksLeavesNoCr(s: Text)
    ensures CR !in AllBreaks(s)
    decreases |s|
  {
    if s != [] {
      AllBreaksLeavesNoCr(if s[0] == CR && |s| >= 2 && s[1] == LF then s[2..] else s[1..]);
    }
  }

  lemma {:induction false} CollapseInlineAddsNoCr(s: Text)
    requires CR !in s
    ensures CR !in CollapseInline(s)
  {
    if s != [] {
      CollapseInlineAddsNoCr(s[1..]);
    }
  }

  lemma {:induction false} TightBreaksAddsNoCr(s: Text)
    requires CR !in s
    ensures CR !in TightBreaks(s)
    decreases |s|
  {
    if s != [] {
      if s[0] == LF {
        TightBreaksAddsNoCr(SkipSpaces(s[1..]));
      } else if s[0] == SPACE && SkipSpaces(s) != [] && SkipSpaces(s)[0] == LF {
        TightBreaksAddsNoCr(SkipSpaces(SkipSpaces(s)[1..]));
      } else {
        TightBreaksAddsNoCr(s[1..]);
      }
    }
  }

  lemma {:induction false} LimitBreaks4AddsNoCr(s: Text)
    requires CR !in s
    ensures CR !in LimitBreaks4(s)
  {
    if s != [] {
      LimitBreaks4AddsNoCr(s[1..]);
    }
  }

  lemma NoCrUncut(text: Text)
    ensures CR !in Uncut(text)
  {
    var a := AllBreaks(DropNul(text));
    AllBreaksLeavesNoCr(DropNul(text));
    CollapseInlineAddsNoCr(a);
    TightBreaksAddsNoCr(CollapseInline(a));
    LimitBreaks4AddsNoCr(TightBreaks(CollapseInline(a)));
    var untrimmed := LimitBreaks4(TightBreaks(CollapseInline(a)));
    var lead, tail := TrimSplits(untrimmed);
  }

  lemma NoCrLeft(text: Text, maximum: nat, nfc: Text -> Text)
    ensures CR !in NormalizeDocumentText(text, maximum, nfc)
  {
    NoCrUncut(nfc(text));
  }

  function NormalizeAll(pageTexts: seq<Text>, maximum: nat, nfc: Text -> Text): (r: seq<Text>)
    ensures |r| == |pageTexts|
    ensures forall k :: 0 <= k < |r| ==> r[k] == NormalizeDocumentText(pageTexts[k], maximum, nfc)
  {
    seq(|pageTexts|, k requires 0 <= k < |pageTexts| => NormalizeDocumentText(pageTexts[k], maximum, nfc))
  }

  /** However a document's pages were extracted, all its chunk offsets are right. */
  lemma DocumentOffsetsAreRight(pageTexts: seq<Text>, maximum: nat, nfc: Text -> Text, i: nat, how: Method)
    requires i < |PagedChunks(NormalizePages(NormalizeAll(pageTexts, maximum, nfc)), how)|
    ensures var pages := NormalizePages(NormalizeAll(pageTexts, maximum, nfc));
            var c := PagedChunks(pages, how)[i];
            InPage(pages, Join(pages), c) && Numbered(c, i, how)
  {
    var normalized := NormalizeAll(pageTexts, maximum, nfc);
    forall k | 0 <= k < |normalized|
      ensures !HasCrCrLf(Trim(normalized[k]))
    {
      NoCrLeft(pageTexts[k], maximum, nfc);
      var lead, tail := TrimSplits(normalized[k]);
    }
    OffsetsAreRight(normalized, i, how);
  }
}
