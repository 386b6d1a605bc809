/** What normalised document text looks like, and that normalising loses no visible character and settles after one pass. */
module NormalForm {
  import opened Utf16
  import opened PageText
  import opened DocumentText

  // ----- nothing visible is lost -----

  /** The characters that are neither white space nor NUL, in order. */
  function Visible(s: Text): Text {
    if s == [] then [] else (if s[0] == 0 || IsSpace(s[0]) then [] else [s[0]]) + Visible(s[1..])
  }

  lemma {:induction false} VisibleConcat(a: Text, b: Text)
    ensures Visible(a + b) == Visible(a) + Visible(b)
  {
    if a == [] {
      assert a + b == b && Visible(a) + Visible(b) == Visible(b);
    } else {
      VisibleConcat(a[1..], b);
      assert (a + b)[0] == a[0] && (a + b)[1..] == a[1..] + b;
      var first := if a[0] == 0 || IsSpace(a[0]) then [] else [a[0]];
      assert first + (Visible(a[1..]) + Visible(b)) == first + Visible(a[1..]) + Visible(b);
    }
  }

  lemma {:induction false} SpaceIsInvisible(s: Text)
    requires AllSpace(s)
    ensures Visible(s) == []
  {
    if s != [] {
      SpaceIsInvisible(s[1..]);
    }
  }

  lemma VisibleFront(u: Unit, s: Text)
    ensures Visible([u] + s) == (if u == 0 || IsSpace(u) then [] else [u]) + Visible(s)
  {
    assert ([u] + s)[1..] == s;
  }

  lemma {:induction false} DropNulShows(s: Text)
    ensures Visible(DropNul(s)) == Visible(s)
  {
    if s != [] {
      DropNulShows(s[1..]);
      VisibleFront(s[0], DropNul(s[1..]));
      assert [] + DropNul(s[1..]) == DropNul(s[1..]);
    }
  }

  lemma {:induction false} AllBreaksShows(s: Text)
    ensures Visible(AllBreaks(s)) == Visible(s)
    decreases |s|
  {
    if s != [] {
      var rest := if s[0] == CR && |s| >= 2 && s[1] == LF then s[2..] else s[1..];
      AllBreaksShows(rest);
      VisibleFront(if s[0] == CR then LF else s[0], AllBreaks(rest));
      if |rest| + 2 == |s| {
        assert s[1..][1..] == rest;
      }
    }
  }

  lemma {:induction false} CollapseInlineShows(s: Text)
    ensures Visible(CollapseInline(s)) == Visible(s)
  {
    if s != [] {
      CollapseInlineShows(s[1..]);
      VisibleFront(if IsInline(s[0]) then SPACE else s[0], CollapseInline(s[1..]));
    }
  }

  lemma {:induction false} SkipSpacesShows(s: Text)
    ensures Visible(SkipSpaces(s)) == Visible(s)
  {
    if s != [] && s[0] == SPACE {
      SkipSpacesShows(s[1..]);
      assert SkipSpaces(s) == SkipSpaces(s[1..]) && Visible(s) == [] + Visible(s[1..]);
    }
  }

  lemma BreakShows(rest: Text, tight: Text)
    requires Visible(tight) == Visible(SkipSpaces(rest))
    ensures Visible([LF] + tight) == Visible([LF] + rest)
  {
    SkipSpacesShows(rest);
    VisibleFront(LF, tight);
    VisibleFront(LF, rest);
  }

  lemma ShowsAtBreak(s: Text)
    requires s != [] && s[0] == LF && Visible(TightBreaks(SkipSpaces(s[1..]))) == Visible(SkipSpaces(s[1..]))
    ensures Visible(TightBreaks(s)) == Visible(s)
  {
    BreakShows(s[1..], TightBreaks(SkipSpaces(s[1..])));
    assert s == [LF] + s[1..];
  }

  /** Spaces before a line feed. */
  predicate SpacesThenBreak(s: Text) {
    s != [] && s[0] == SPACE && SkipSpaces(s) != [] && SkipSpaces(s)[0] == LF
  }

  lemma TightAtSpaces(s: Text)
    requires SpacesThenBreak(s)
    ensures TightBreaks(s) == [LF] + TightBreaks(SkipSpaces(SkipSpaces(s)[1..]))
  {
  }

  lemma VisibleAtSpaces(s: Text, skipped: Text)
    requires SpacesThenBreak(s) && skipped == SkipSpaces(s)
    ensures Visible(s) == Visible([LF] + skipped[1..])
  {
    SkipSpacesShows(s);
    FirstAndRest(skipped);
  }

  lemma FirstAndRest(s: Text)
    requires s != []
    ensures s == [s[0]] + s[1..]
  {
  }

  lemma ShowsAtSpaces(s: Text, rest: Text)
    requires SpacesThenBreak(s) && rest == SkipSpaces(s)[1..] &&
             Visible(TightBreaks(SkipSpaces(rest))) == Visible(SkipSpaces(rest))
    ensures Visible(TightBreaks(s)) == Visible(s)
  {
    TightAtSpaces(s);
    VisibleAtSpaces(s, SkipSpaces(s));
    BreakShows(rest, TightBreaks(SkipSpaces(rest)));
  }

  lemma ShowsElsewhere(s: Text)
    requires s != [] && s[0] != LF && !SpacesThenBreak(s) && Visible(TightBreaks(s[1..])) == Visible(s[1..])
    ensures Visible(TightBreaks(s)) == Visible(s)
  {
    VisibleFront(s[0], TightBreaks(s[1..]));
  }

  lemma {:induction false} TightBreaksShows(s: Text)
    ensures Visible(TightBreaks(s)) == Visible(s)
    decreases |s|
  {
    if s == [] {
    } else if s[0] == LF {
      TightBreaksShows(SkipSpaces(s[1..]));
      ShowsAtBreak(s);
    } else if SpacesThenBreak(s) {
      TightBreaksShows(SkipSpaces(SkipSpaces(s)[1..]));
      ShowsAtSpaces(s, SkipSpaces(s)[1..]);
    } else {
      TightBreaksShows(s[1..]);
      ShowsElsewhere(s);
    }
  }

  lemma {:induction false} LimitBreaks4Shows(s: Text)
    ensures Visible(LimitBreaks4(s)) == Visible(s)
  {
    if s != [] {
      LimitBreaks4Shows(s[1..]);
      VisibleFront(s[0], LimitBreaks4(s[1..]));
    }
  }

  lemma TrimShows(s: Text)
    ensures Visible(Trim(s)) == Visible(s)
  {
    var lead, tail := TrimSplits(s);
    SpaceIsInvisible(lead);
    SpaceIsInvisible(tail);
    VisibleConcat(lead + Trim(s), tail);
    VisibleConcat(lead, Trim(s));
  }

  lemma UncutShows(text: Text)
    ensures Visible(Uncut(text)) == Visible(text)
  {
    var a := DropNul(text);
    var b := AllBreaks(a);
    var c := CollapseInline(b);
    var d := TightBreaks(c);
    DropNulShows(text);
    AllBreaksShows(a);
    CollapseInlineShows(b);
    TightBreaksShows(c);
    LimitBreaks4Shows(d);
    TrimShows(LimitBreaks4(d));
  }

  lemma CutShows(kept: Text, cut: Text)
    ensures Visible(kept) <= Visible(kept + cut)
  {
    VisibleConcat(kept, cut);
  }

  /**
   * The visible characters of normalised text are those of the text as Unicode normalisation left it, in the
   * same order: all of them, or a first part if the text was cut.
   */
  lemma NothingVisibleIsLost(text: Text, maximum: nat, nfc: Text -> Text)
    ensures var r := NormalizeDocumentText(text, maximum, nfc);
            |r| <= maximum && Visible(r) <= Visible(nfc(text)) && (|r| < maximum ==> Visible(r) == Visible(nfc(text)))
  {
    var whole := Uncut(nfc(text));
    UncutShows(nfc(text));
    if |whole| > maximum {
      CutShows(whole[..maximum], whole[maximum..]);
      assert whole[..maximum] + whole[maximum..] == whole;
    }
  }

  // ----- the normal form -----

  /** No NUL and no carriage return; of white space only spaces, line feeds and form feeds. */
  predicate PlainUnits(s: Text) {
    forall i :: 0 <= i < |s| ==> s[i] != 0 && s[i] != CR && (IsSpace(s[i]) ==> s[i] in {SPACE, LF, FORM_FEED})
  }

  /** Two spaces in a row, or a space beside a line feed. */
  predicate Loose(a: Unit, b: Unit) {
    (a == SPACE && b in {SPACE, LF}) || (a == LF && b == SPACE)
  }

  predicate Tight(s: Text) {
    |s| < 2 || (!Loose(s[0], s[1]) && Tight(s[1..]))
  }

  /** How many line feeds a text starts with. */
  function Breaks(s: Text): nat {
    if s != [] && s[0] == LF then 1 + Breaks(s[1..]) else 0
  }

  /** At most three line feeds in a row. */
  predicate FewBreaks(s: Text) {
    s == [] || (Breaks(s) <= 3 && FewBreaks(s[1..]))
  }

  predicate Normal(s: Text) {
    PlainUnits(s) && Tight(s) && FewBreaks(s)
  }

  predicate NoNul(s: Text) {
    forall i :: 0 <= i < |s| ==> s[i] != 0
  }

  /** No carriage return and no NUL. */
  predicate NoControls(s: Text) {
    forall i :: 0 <= i < |s| ==> s[i] != 0 && s[i] != CR
  }

  lemma {:induction false} DropNulDrops(s: Text)
    ensures NoNul(DropNul(s))
  {
    if s != [] {
      DropNulDrops(s[1..]);
    }
  }

  lemma {:induction false} AllBreaksCleans(s: Text)
    requires NoNul(s)
    ensures NoControls(AllBreaks(s))
    decreases |s|
  {
    if s != [] {
      AllBreaksCleans(if s[0] == CR && |s| >= 2 && s[1] == LF then s[2..] else s[1..]);
    }
  }

  predicate NoDoubleSpace(s: Text) {
    |s| < 2 || (!(s[0] == SPACE && s[1] == SPACE) && NoDoubleSpace(s[1..]))
  }

  lemma {:induction false} CollapseInlineCollapses(s: Text)
    requires NoControls(s)
    ensures var r := CollapseInline(s);
            PlainUnits(r) && NoDoubleSpace(r) && (r != [] ==> s != [] && (r[0] == SPACE <==> IsInline(s[0])))
  {
    if s != [] {
      var r := CollapseInline(s[1..]);
      CollapseInlineCollapses(s[1..]);
      assert ([s[0]] + r)[1..] == r && ([SPACE] + r)[1..] == r;
    }
  }

  lemma {:induction false} SkipSpacesSkips(s: Text)
    ensures SkipSpaces(s) == [] || SkipSpaces(s)[0] != SPACE
  {
    if s != [] && s[0] == SPACE {
      SkipSpacesSkips(s[1..]);
    }
  }

  /** Put in front of tight text. */
  lemma TightFront(u: Unit, r: Text)
    requires Tight(r) && (r != [] ==> !Loose(u, r[0])) && PlainUnits(r) && u != 0 && u != CR &&
             (IsSpace(u) ==> u in {SPACE, LF, FORM_FEED})
    ensures Tight([u] + r) && PlainUnits([u] + r)
  {
    assert ([u] + r)[1..] == r;
  }

  predicate Collapsed(s: Text) {
    PlainUnits(s) && NoDoubleSpace(s)
  }

  lemma {:induction false} SuffixCollapsed(s: Text, t: Text)
    requires Collapsed(s) && |t| <= |s| && t == s[|s| - |t|..]
    ensures Collapsed(t)
  {
    if |t| == |s| {
      assert t == s;
    } else {
      assert t == s[1..][|s| - 1 - |t|..];
      SuffixCollapsed(s[1..], t);
    }
  }

  /** After a line feed the text goes on with something else than a space, and so does the result. */
  lemma {:induction false} TightBreaksTightens(s: Text)
    requires Collapsed(s)
    ensures var r := TightBreaks(s);
            PlainUnits(r) && Tight(r) && (r != [] && r[0] == SPACE ==> s != [] && s[0] == SPACE && (|s| == 1 || s[1] != LF))
    ensures s != [] && s[0] != SPACE ==> TightBreaks(s) != [] && TightBreaks(s)[0] == s[0]
    decreases |s|, 0
  {
    if s == [] {
    } else if s[0] == LF {
      SuffixCollapsed(s, s[1..]);
      AfterBreakTight(s[1..], SkipSpaces(s[1..]));
    } else if SpacesThenBreak(s) {
      var skipped := SkipSpaces(s);
      assert skipped[1..] == s[|s| - |skipped| + 1..];
      SuffixCollapsed(s, skipped[1..]);
      AfterBreakTight(skipped[1..], SkipSpaces(skipped[1..]));
      TightAtSpaces(s);
    } else {
      SuffixCollapsed(s, s[1..]);
      TightBreaksTightens(s[1..]);
      ElsewhereTight(s);
    }
  }

  lemma ElsewhereTight(s: Text)
    requires Collapsed(s) && s != [] && s[0] != LF && !SpacesThenBreak(s)
    requires var r := TightBreaks(s[1..]);
             PlainUnits(r) && Tight(r) && (s[1..] != [] && s[1..][0] != SPACE ==> r != [] && r[0] == s[1..][0])
    ensures var r := TightBreaks(s);
            PlainUnits(r) && Tight(r) && r != [] && r[0] == s[0] && (s[0] == SPACE ==> |s| == 1 || s[1] != LF)
  {
    if s[0] == SPACE && |s| > 1 {
      assert s[1] != SPACE;
      assert SkipSpaces(s) == s[1..];
    }
    TightFront(s[0], TightBreaks(s[1..]));
  }

  lemma {:induction false} AfterBreakTight(t: Text, rest: Text)
    requires Collapsed(t) && rest == SkipSpaces(t)
    ensures PlainUnits([LF] + TightBreaks(rest)) && Tight([LF] + TightBreaks(rest))
    decreases |t|, 1
  {
    SkipSpacesSkips(t);
    SuffixCollapsed(t, rest);
    TightBreaksTightens(rest);
    BreakInFront(rest, TightBreaks(rest));
  }

  lemma BreakInFront(rest: Text, r: Text)
    requires PlainUnits(r) && Tight(r) && (r != [] && r[0] == SPACE ==> rest != [] && rest[0] == SPACE) &&
             (rest != [] ==> rest[0] != SPACE)
    ensures PlainUnits([LF] + r) && Tight([LF] + r)
  {
    TightFront(LF, r);
  }

  lemma {:induction false} BreaksAtLeast(s: Text, n: nat)
    ensures Breaks(s) >= n <==> n <= |s| && forall j :: 0 <= j < n ==> s[j] == LF
    decreases n
  {
    if n > 0 && s != [] {
      BreaksAtLeast(s[1..], n - 1);
      if n <= |s| {
        assert forall j :: 0 < j < n ==> s[1..][j - 1] == s[j];
        assert forall j :: 0 <= j < n - 1 ==> s[j + 1] == s[1..][j];
      }
    }
  }

  lemma FewFront(u: Unit, r: Text)
    requires FewBreaks(r) && (u == LF ==> Breaks(r) < 3)
    ensures FewBreaks([u] + r)
  {
    BreaksFront(u, r);
    assert ([u] + r)[1..] == r;
  }

  lemma BreaksFront(u: Unit, r: Text)
    ensures Breaks([u] + r) == if u == LF then 1 + Breaks(r) else 0
  {
    assert ([u] + r)[1..] == r;
  }

  lemma FourBreaks(s: Text)
    ensures |s| >= 4 && s[0] == LF && s[1] == LF && s[2] == LF && s[3] == LF <==> Breaks(s) >= 4
  {
    BreaksAtLeast(s, 4);
  }

  lemma {:induction false} LimitBreaks4Counts(s: Text)
    ensures FewBreaks(LimitBreaks4(s)) && Breaks(LimitBreaks4(s)) == if Breaks(s) < 3 then Breaks(s) else 3
  {
    if s != [] {
      FourBreaks(s);
      LimitBreaks4Counts(s[1..]);
      if Breaks(s) < 4 {
        FewFront(s[0], LimitBreaks4(s[1..]));
        BreaksFront(s[0], LimitBreaks4(s[1..]));
      }
    }
  }

  lemma {:induction false} LimitBreaks4KeepsTight(s: Text)
    requires PlainUnits(s) && Tight(s)
    ensures PlainUnits(LimitBreaks4(s)) && Tight(LimitBreaks4(s)) &&
            (s != [] ==> LimitBreaks4(s) != [] && LimitBreaks4(s)[0] == s[0])
  {
    if s != [] {
      var rest := s[1..];
      assert forall i :: 0 <= i < |rest| ==> rest[i] == s[i + 1];
      LimitBreaks4KeepsTight(rest);
      if LimitBreaks4(s) != LimitBreaks4(rest) {
        TightFront(s[0], LimitBreaks4(rest));
      }
    }
  }

  lemma {:induction false} BreaksOfPrefix(s: Text, k: nat)
    requires k <= |s|
    ensures Breaks(s[..k]) <= Breaks(s)
  {
    if k > 0 {
      BreaksOfPrefix(s[1..], k - 1);
      assert s[..k][1..] == s[1..][..k - 1];
    }
  }

  lemma {:induction false} PrefixNormal(s: Text, k: nat)
    requires Normal(s) && k <= |s|
    ensures Normal(s[..k])
  {
    if k > 0 {
      PrefixNormal(s[1..], k - 1);
      assert s[..k][1..] == s[1..][..k - 1];
      BreaksOfPrefix(s, k);
    }
  }

  lemma {:induction false} SuffixNormal(s: Text, k: nat)
    requires Normal(s) && k <= |s|
    ensures Normal(s[k..])
  {
    if k > 0 {
      SuffixNormal(s[1..], k - 1);
      assert s[k..] == s[1..][k - 1..];
    } else {
      assert s[0..] == s;
    }
  }

  lemma SliceNormal(s: Text, from: nat, to: nat)
    requires Normal(s) && from <= to <= |s|
    ensures Normal(s[from..to])
  {
    SuffixNormal(s, from);
    PrefixNormal(s[from..], to - from);
    assert s[from..to] == s[from..][..to - from];
  }

  lemma UncutNormal(text: Text)
    ensures Normal(Uncut(text)) && Trimmed(Uncut(text))
  {
    var a := AllBreaks(DropNul(text));
    DropNulDrops(text);
    AllBreaksCleans(DropNul(text));
    CollapseInlineCollapses(a);
    TightBreaksTightens(CollapseInline(a));
    var whole := LimitBreaks4(TightBreaks(CollapseInline(a)));
    LimitBreaks4KeepsTight(TightBreaks(CollapseInline(a)));
    LimitBreaks4Counts(TightBreaks(CollapseInline(a)));
    var lead, tail := TrimSplits(whole);
    assert Trim(whole) == whole[|lead|..|lead| + |Trim(whole)|];
    SliceNormal(whole, |lead|, |lead| + |Trim(whole)|);
  }

  /** Normalised text is in normal form and, unless it was cut, trimmed. */
  lemma ResultIsNormal(text: Text, maximum: nat, nfc: Text -> Text)
    ensures var r := NormalizeDocumentText(text, maximum, nfc);
            |r| <= maximum && Normal(r) && (|r| < maximum ==> Trimmed(r))
  {
    UncutNormal(nfc(text));
    var whole := Uncut(nfc(text));
    if |whole| > maximum {
      PrefixNormal(whole, maximum);
    }
  }

  // ----- text in normal form stays as it is -----

  lemma TailNormal(s: Text)
    requires Normal(s) && s != []
    ensures Normal(s[1..]) && s == [s[0]] + s[1..]
  {
    SuffixNormal(s, 1);
  }

  lemma {:induction false} StagesKeepNormal(s: Text)
    requires Normal(s)
    ensures DropNul(s) == s && AllBreaks(s) == s && CollapseInline(s) == s && LimitBreaks4(s) == s
  {
    if s != [] {
      TailNormal(s);
      StagesKeepNormal(s[1..]);
      FourBreaks(s);
    }
  }

  lemma {:induction false} TightBreaksKeepsNormal(s: Text)
    requires Normal(s)
    ensures TightBreaks(s) == s
    decreases |s|
  {
    if s != [] {
      TailNormal(s);
      TightBreaksKeepsNormal(s[1..]);
      if s[0] == LF {
        assert SkipSpaces(s[1..]) == s[1..];
      } else if s[0] == SPACE {
        assert SkipSpaces(s) == s[1..];
      }
    }
  }

  lemma TrimmedStays(s: Text)
    requires Trimmed(s)
    ensures Trim(s) == s
  {
    TrimOf([], s, []);
    assert [] + s + [] == s;
  }

  lemma UncutKeepsNormal(s: Text)
    requires Normal(s) && Trimmed(s)
    ensures Uncut(s) == s
  {
    StagesKeepNormal(s);
    TightBreaksKeepsNormal(s);
    TrimmedStays(s);
  }

  /**
   * Normalising is a projection: text that is in normal form, trimmed, short enough and stable under Unicode
   * normalisation stays as it is; so normalising normalised text again changes nothing.
   */
  lemma NormalTextStays(s: Text, maximum: nat, nfc: Text -> Text)
    requires Normal(s) && Trimmed(s) && |s| <= maximum && nfc(s) == s
    ensures NormalizeDocumentText(s, maximum, nfc) == s
  {
    UncutKeepsNormal(s);
  }

  lemma NormalizingTwice(text: Text, maximum: nat, nfc: Text -> Text)
    requires var r := NormalizeDocumentText(text, maximum, nfc); |r| < maximum && nfc(r) == r
    ensures var r := NormalizeDocumentText(text, maximum, nfc); NormalizeDocumentText(r, maximum, nfc) == r
  {
    ResultIsNormal(text, maximum, nfc);
    NormalTextStays(NormalizeDocumentText(text, maximum, nfc), maximum, nfc);
  }
}
