/** White-space normalisation of extracted pages, and when doing it twice changes nothing. */
module PageText {
  import opened Utf16

  const TAB: Unit := 0x09
  const LF: Unit := 0x0A
  const CR: Unit := 0x0D
  const SPACE: Unit := 0x20

  /** What `trim` and `\s` take for white space. */
  predicate IsSpace(u: Unit) {
    0x09 <= u <= 0x0D || u == 0x20 || u == 0xA0 || u == 0x1680 || 0x2000 <= u <= 0x200A || u == 0x2028 || u == 0x2029 ||
    u == 0x202F || u == 0x205F || u == 0x3000 || u == 0xFEFF
  }

  predicate IsBlank(u: Unit) {
    u == SPACE || u == TAB
  }

  function TrimStart(s: Text): Text {
    if s != [] && IsSpace(s[0]) then TrimStart(s[1..]) else s
  }

  function TrimEnd(s: Text): Text {
    if s != [] && IsSpace(s[|s| - 1]) then TrimEnd(s[..|s| - 1]) else s
  }

  function Trim(s: Text): Text {
    TrimEnd(TrimStart(s))
  }

  /** /\r\n/ becomes \n. */
  function UnixBreaks(s: Text): Text {
    if s == [] then []
    else if |s| >= 2 && s[0] == CR && s[1] == LF then [LF] + UnixBreaks(s[2..])
    else [s[0]] + UnixBreaks(s[1..])
  }

  /** A maximal run of spaces and tabs becomes one space. */
  function CollapseBlanks(s: Text): Text {
    if s == [] then []
    else if !IsBlank(s[0]) then [s[0]] + CollapseBlanks(s[1..])
    else if |s| >= 2 && IsBlank(s[1]) then CollapseBlanks(s[1..])
    else [SPACE] + CollapseBlanks(s[1..])
  }

  /** Three or more line feeds become two. */
  function LimitBreaks(s: Text): Text {
    if s == [] then []
    else if |s| >= 3 && s[0] == LF && s[1] == LF && s[2] == LF then LimitBreaks(s[1..])
    else [s[0]] + LimitBreaks(s[1..])
  }

  function Squeeze(s: Text): Text {
    LimitBreaks(CollapseBlanks(UnixBreaks(s)))
  }

  function Normalize(s: Text): Text {
    Trim(Squeeze(s))
  }

  predicate Has2(s: Text, a: Unit, b: Unit) {
    exists i :: 0 <= i < |s| - 1 && s[i] == a && s[i + 1] == b
  }

  predicate HasCrCrLf(s: Text) {
    exists i :: 0 <= i < |s| - 2 && s[i] == CR && s[i + 1] == CR && s[i + 2] == LF
  }

  // ----- trimming -----

  predicate AllSpace(s: Text) {
    forall i :: 0 <= i < |s| ==> IsSpace(s[i])
  }

  /** Empty, or with something else than white space at both ends. */
  predicate Trimmed(s: Text) {
    s == [] || (!IsSpace(s[0]) && !IsSpace(s[|s| - 1]))
  }

  lemma {:induction false} TrimStartSplits(s: Text) returns (lead: Text)
    ensures s == lead + TrimStart(s) && AllSpace(lead)
    ensures TrimStart(s) == [] || !IsSpace(TrimStart(s)[0])
  {
    if s != [] && IsSpace(s[0]) {
      var rest := TrimStartSplits(s[1..]);
      lead := [s[0]] + rest;
    } else {
      lead := [];
    }
  }

  lemma {:induction false} TrimEndSplits(s: Text) returns (tail: Text)
    ensures s == TrimEnd(s) + tail && AllSpace(tail)
    ensures TrimEnd(s) == [] || !IsSpace(TrimEnd(s)[|TrimEnd(s)| - 1])
    ensures s != [] && !IsSpace(s[0]) ==> TrimEnd(s) != []
  {
    if s != [] && IsSpace(s[|s| - 1]) {
      var rest := TrimEndSplits(s[..|s| - 1]);
      tail := rest + [s[|s| - 1]];
    } else {
      tail := [];
    }
  }

  /** Trimming cuts white space off both ends, and nothing else. */
  lemma TrimSplits(s: Text) returns (lead: Text, tail: Text)
    ensures s == lead + Trim(s) + tail && AllSpace(lead) && AllSpace(tail) && Trimmed(Trim(s))
  {
    lead := TrimStartSplits(s);
    tail := TrimEndSplits(TrimStart(s));
  }

  lemma {:induction false} TrimStartDrops(lead: Text, s: Text)
    requires AllSpace(lead) && (s == [] || !IsSpace(s[0]))
    ensures TrimStart(lead + s) == s
  {
    if lead == [] {
      assert lead + s == s;
    } else {
      assert (lead + s)[1..] == lead[1..] + s;
      TrimStartDrops(lead[1..], s);
    }
  }

  lemma {:induction false} TrimEndDrops(s: Text, tail: Text)
    requires AllSpace(tail) && (s == [] || !IsSpace(s[|s| - 1]))
    ensures TrimEnd(s + tail) == s
  {
    if tail == [] {
      assert s + tail == s;
    } else {
      assert (s + tail)[..|s + tail| - 1] == s + tail[..|tail| - 1];
      TrimEndDrops(s, tail[..|tail| - 1]);
    }
  }

  /** Trimming is determined by the parts it separates. */
  lemma TrimOf(lead: Text, s: Text, tail: Text)
    requires AllSpace(lead) && AllSpace(tail) && Trimmed(s)
    ensures Trim(lead + s + tail) == s
  {
    if s == [] {
      TrimStartDrops(lead + s + tail, []);
      assert lead + s + tail + [] == lead + s + tail;
    } else {
      assert lead + s + tail == lead + (s + tail);
      TrimStartDrops(lead, s + tail);
      TrimEndDrops(s, tail);
    }
  }

  // ----- the three replacements work on each side of a visible character alone -----

  /** The cut between a and b touches a character that is not white space. */
  predicate CleanCut(a: Text, b: Text) {
    a == [] || b == [] || !IsSpace(a[|a| - 1]) || !IsSpace(b[0])
  }

  lemma {:induction false} UnixBreaksSplit(a: Text, b: Text)
    requires CleanCut(a, b)
    ensures UnixBreaks(a + b) == UnixBreaks(a) + UnixBreaks(b)
  {
    if a == [] {
      assert a + b == b;
    } else if |a| >= 2 && a[0] == CR && a[1] == LF {
      assert (a + b)[2..] == a[2..] + b;
      UnixBreaksSplit(a[2..], b);
    } else {
      assert (a + b)[1..] == a[1..] + b;
      UnixBreaksSplit(a[1..], b);
    }
  }

  lemma {:induction false} CollapseBlanksSplit(a: Text, b: Text)
    requires CleanCut(a, b)
    ensures CollapseBlanks(a + b) == CollapseBlanks(a) + CollapseBlanks(b)
  {
    if a == [] {
      assert a + b == b;
    } else {
      assert (a + b)[1..] == a[1..] + b;
      CollapseBlanksSplit(a[1..], b);
    }
  }

  lemma {:induction false} LimitBreaksSplit(a: Text, b: Text)
    requires CleanCut(a, b)
    ensures LimitBreaks(a + b) == LimitBreaks(a) + LimitBreaks(b)
  {
    if a == [] {
      assert a + b == b;
    } else {
      assert (a + b)[1..] == a[1..] + b;
      LimitBreaksSplit(a[1..], b);
    }
  }

  /** Replacements keep white space white, and the visible ends of a text in place. */
  predicate KeepsEnds(s: Text, t: Text) {
    (AllSpace(s) ==> AllSpace(t)) &&
    (s != [] ==> t != [] && (!IsSpace(s[0]) ==> t[0] == s[0]) && (!IsSpace(s[|s| - 1]) ==> t[|t| - 1] == s[|s| - 1]))
  }

  lemma {:induction false} UnixBreaksEnds(s: Text)
    ensures KeepsEnds(s, UnixBreaks(s))
  {
    if s == [] {
    } else if |s| >= 2 && s[0] == CR && s[1] == LF {
      UnixBreaksEnds(s[2..]);
    } else {
      UnixBreaksEnds(s[1..]);
    }
  }

  lemma {:induction false} CollapseBlanksEnds(s: Text)
    ensures KeepsEnds(s, CollapseBlanks(s))
  {
    if s != [] {
      CollapseBlanksEnds(s[1..]);
    }
  }

  lemma {:induction false} LimitBreaksEnds(s: Text)
    ensures KeepsEnds(s, LimitBreaks(s))
  {
    if s != [] {
      LimitBreaksEnds(s[1..]);
    }
  }

  lemma SqueezeEnds(s: Text)
    ensures KeepsEnds(s, Squeeze(s))
  {
    UnixBreaksEnds(s);
    CollapseBlanksEnds(UnixBreaks(s));
    LimitBreaksEnds(CollapseBlanks(UnixBreaks(s)));
  }

  /** The ends of KeepsEnds make a clean cut clean again. */
  lemma CutStaysClean(a: Text, b: Text, c: Text, d: Text)
    requires CleanCut(a, b) && KeepsEnds(a, c) && KeepsEnds(b, d)
    requires (a == [] ==> c == []) && (b == [] ==> d == [])
    ensures CleanCut(c, d)
  {
  }

  lemma SqueezeSplit(a: Text, b: Text)
    requires CleanCut(a, b)
    ensures Squeeze(a + b) == Squeeze(a) + Squeeze(b)
  {
    UnixBreaksSplit(a, b);
    UnixBreaksEnds(a);
    UnixBreaksEnds(b);
    var a1, b1 := UnixBreaks(a), UnixBreaks(b);
    CutStaysClean(a, b, a1, b1);
    CollapseBlanksSplit(a1, b1);
    CollapseBlanksEnds(a1);
    CollapseBlanksEnds(b1);
    CutStaysClean(a1, b1, CollapseBlanks(a1), CollapseBlanks(b1));
    LimitBreaksSplit(CollapseBlanks(a1), CollapseBlanks(b1));
  }

  /** Trimming first gives the same, and then no trimming is needed afterwards. */
  lemma NormalizeTrimmed(s: Text)
    ensures Normalize(s) == Squeeze(Trim(s)) && Trimmed(Normalize(s))
  {
    var lead, tail := TrimSplits(s);
    var m := Trim(s);
    SqueezeEnds(lead);
    SqueezeEnds(m);
    SqueezeEnds(tail);
    if m == [] {
      assert s == lead + tail;
      assert AllSpace(s) && s + [] + [] == s;
      SqueezeEnds(s);
      TrimOf(Squeeze(s), [], []);
      assert Squeeze(s) + [] + [] == Squeeze(s);
    } else {
      SqueezeSplit(lead + m, tail);
      SqueezeSplit(lead, m);
      TrimOf(Squeeze(lead), Squeeze(m), Squeeze(tail));
    }
  }

  // ----- when normalising again changes nothing -----

  lemma {:induction false} UnixBreaksPairs(s: Text)
    ensures Has2(UnixBreaks(s), CR, LF) <==> HasCrCrLf(s)
  {
    var t := UnixBreaks(s);
    if |s| >= 2 && s[0] == CR && s[1] == LF {
      UnixBreaksPairs(s[2..]);
      DropKeepsCrCrLf(s, 2);
      DropKeepsPair(t, CR, LF);
    } else if s != [] {
      UnixBreaksPairs(s[1..]);
      DropKeepsCrCrLf(s, 1);
      DropKeepsPair(t, CR, LF);
      FirstBreak(s[1..]);
    }
  }

  lemma FirstBreak(s: Text)
    ensures var t := UnixBreaks(s); t != [] && t[0] == LF <==> s != [] && (s[0] == LF || (|s| >= 2 && s[0] == CR && s[1] == LF))
  {
  }

  lemma DropKeepsPair(s: Text, a: Unit, b: Unit)
    requires s != []
    ensures Has2(s, a, b) <==> (|s| >= 2 && s[0] == a && s[1] == b) || Has2(s[1..], a, b)
  {
    if Has2(s, a, b) {
      var i :| 0 <= i < |s| - 1 && s[i] == a && s[i + 1] == b;
      if i > 0 {
        assert s[1..][i - 1] == a && s[1..][i] == b;
      }
    }
    if Has2(s[1..], a, b) {
      var i :| 0 <= i < |s[1..]| - 1 && s[1..][i] == a && s[1..][i + 1] == b;
      assert s[i + 1] == a && s[i + 2] == b;
    }
  }

  /** Dropping one unit, or a leading CR LF, loses only an occurrence at the very start. */
  lemma DropKeepsCrCrLf(s: Text, n: nat)
    requires n <= |s| && (n == 1 || (n == 2 && s[0] == CR && s[1] == LF))
    ensures HasCrCrLf(s) <==> (n == 1 && |s| >= 3 && s[0] == CR && s[1] == CR && s[2] == LF) || HasCrCrLf(s[n..])
  {
    if HasCrCrLf(s) {
      var i :| 0 <= i < |s| - 2 && s[i] == CR && s[i + 1] == CR && s[i + 2] == LF;
      if i >= n {
        assert s[n..][i - n] == CR && s[n..][i - n + 1] == CR && s[n..][i - n + 2] == LF;
      }
    }
    if HasCrCrLf(s[n..]) {
      var i :| 0 <= i < |s[n..]| - 2 && s[n..][i] == CR && s[n..][i + 1] == CR && s[n..][i + 2] == LF;
      assert s[n + i] == CR && s[n + i + 1] == CR && s[n + i + 2] == LF;
    }
  }

  /** Neither of the later replacements makes or removes a CR LF. */
  lemma {:induction false} CollapseBlanksPairs(s: Text)
    ensures Has2(CollapseBlanks(s), CR, LF) <==> Has2(s, CR, LF)
  {
    if s != [] {
      CollapseBlanksPairs(s[1..]);
      CollapseFirst(s);
      DropKeepsPair(s, CR, LF);
      DropKeepsPair(CollapseBlanks(s), CR, LF);
      if |s| >= 2 {
        assert s[1] == LF <==> CollapseBlanks(s[1..])[0] == LF by {
          CollapseFirst(s[1..]);
        }
      }
      if !(IsBlank(s[0]) && |s| >= 2 && IsBlank(s[1])) {
        assert CollapseBlanks(s)[1..] == CollapseBlanks(s[1..]);
      }
    }
  }

  lemma {:induction false} CollapseFirst(s: Text)
    requires s != []
    ensures CollapseBlanks(s) != [] && CollapseBlanks(s)[0] == if IsBlank(s[0]) then SPACE else s[0]
  {
    if IsBlank(s[0]) && |s| >= 2 && IsBlank(s[1]) {
      CollapseFirst(s[1..]);
    }
  }

  lemma {:induction false} LimitFirst(s: Text)
    requires s != []
    ensures LimitBreaks(s) != [] && LimitBreaks(s)[0] == s[0]
  {
    if |s| >= 3 && s[0] == LF && s[1] == LF && s[2] == LF {
      LimitFirst(s[1..]);
    }
  }

  lemma {:induction false} LimitBreaksPairs(s: Text)
    ensures Has2(LimitBreaks(s), CR, LF) <==> Has2(s, CR, LF)
  {
    if s != [] {
      LimitBreaksPairs(s[1..]);
      DropKeepsPair(s, CR, LF);
      if |s| >= 2 {
        LimitFirst(s[1..]);
      }
      if !(|s| >= 3 && s[0] == LF && s[1] == LF && s[2] == LF) {
        assert LimitBreaks(s)[1..] == LimitBreaks(s[1..]);
        DropKeepsPair(LimitBreaks(s), CR, LF);
      }
    }
  }

  /** No tab, no two spaces in a row, no three line feeds in a row. */
  predicate Squeezed(s: Text) {
    (forall i :: 0 <= i < |s| ==> s[i] != TAB) &&
    (forall i :: 0 <= i < |s| - 1 ==> !(s[i] == SPACE && s[i + 1] == SPACE)) &&
    (forall i :: 0 <= i < |s| - 2 ==> !(s[i] == LF && s[i + 1] == LF && s[i + 2] == LF))
  }

  predicate NoDoubleBlank(s: Text) {
    (forall i :: 0 <= i < |s| ==> s[i] != TAB) && (forall i :: 0 <= i < |s| - 1 ==> !(s[i] == SPACE && s[i + 1] == SPACE))
  }

  lemma {:induction false} CollapseGivesSingles(s: Text)
    ensures NoDoubleBlank(CollapseBlanks(s))
  {
    if s != [] {
      CollapseGivesSingles(s[1..]);
      if |s| >= 2 {
        CollapseFirst(s[1..]);
      }
    }
  }

  lemma {:induction false} LimitKeepsSingles(s: Text)
    requires NoDoubleBlank(s)
    ensures Squeezed(LimitBreaks(s))
    ensures |s| >= 2 && s[0] == LF && s[1] != LF && |LimitBreaks(s)| >= 2 ==> LimitBreaks(s)[1] != LF
  {
    if s != [] {
      LimitKeepsSingles(s[1..]);
      if |s| >= 2 {
        LimitFirst(s[1..]);
        if |s| >= 3 {
          LimitFirst(s[2..]);
        }
      }
      if |s| >= 3 && s[0] == LF && s[1] == LF && s[2] == LF {
      } else {
        assert LimitBreaks(s) == [s[0]] + LimitBreaks(s[1..]);
      }
    }
  }

  lemma SqueezedTail(s: Text)
    requires Squeezed(s) && s != []
    ensures Squeezed(s[1..])
  {
    var t := s[1..];
    forall i | 0 <= i < |t| - 1
      ensures !(t[i] == SPACE && t[i + 1] == SPACE)
    {
      assert !(s[i + 1] == SPACE && s[i + 2] == SPACE);
    }
    forall i | 0 <= i < |t| - 2
      ensures !(t[i] == LF && t[i + 1] == LF && t[i + 2] == LF)
    {
      assert !(s[i + 1] == LF && s[i + 2] == LF && s[i + 3] == LF);
    }
  }

  lemma {:induction false} SqueezedStays(s: Text)
    requires Squeezed(s)
    ensures CollapseBlanks(s) == s && LimitBreaks(s) == s
  {
    if s != [] {
      SqueezedTail(s);
      SqueezedStays(s[1..]);
      assert |s| >= 2 ==> !(s[0] == SPACE && s[1] == SPACE);
      assert |s| >= 3 ==> !(s[0] == LF && s[1] == LF && s[2] == LF);
      assert s[0] != TAB && s == [s[0]] + s[1..];
    }
  }

  lemma {:induction false} UnixBreaksStays(s: Text)
    ensures !Has2(s, CR, LF) ==> UnixBreaks(s) == s
    ensures Has2(s, CR, LF) ==> |UnixBreaks(s)| < |s|
    ensures |UnixBreaks(s)| <= |s|
  {
    if s != [] {
      DropKeepsPair(s, CR, LF);
      if |s| >= 2 && s[0] == CR && s[1] == LF {
        UnixBreaksStays(s[2..]);
      } else {
        UnixBreaksStays(s[1..]);
      }
    }
  }

  lemma {:induction false} LaterShrink(s: Text)
    ensures |CollapseBlanks(s)| <= |s| && |LimitBreaks(s)| <= |s|
  {
    if s != [] {
      LaterShrink(s[1..]);
    }
  }

  lemma SqueezeStays(s: Text)
    requires Squeezed(s)
    ensures Squeeze(s) == s <==> !Has2(s, CR, LF)
  {
    UnixBreaksStays(s);
    SqueezedStays(s);
    if Has2(s, CR, LF) {
      LaterShrink(UnixBreaks(s));
      LaterShrink(CollapseBlanks(UnixBreaks(s)));
    }
  }

  lemma SqueezedOnce(m: Text)
    ensures Squeezed(Squeeze(m)) && (Has2(Squeeze(m), CR, LF) <==> HasCrCrLf(m))
  {
    CollapseGivesSingles(UnixBreaks(m));
    LimitKeepsSingles(CollapseBlanks(UnixBreaks(m)));
    UnixBreaksPairs(m);
    CollapseBlanksPairs(UnixBreaks(m));
    LimitBreaksPairs(CollapseBlanks(UnixBreaks(m)));
  }

  /**
   * A page comes out of a second normalisation unchanged if and only if it has no CR CR LF between
   * its first and its last visible character.
   */
  lemma NormalizeIdempotentIff(page: Text)
    ensures Normalize(Normalize(page)) == Normalize(page) <==> !HasCrCrLf(Trim(page))
  {
    var q := Normalize(page);
    NormalizeTrimmed(page);
    SqueezedOnce(Trim(page));
    SqueezeStays(q);
    NormalizeTrimmed(q);
    TrimOf([], q, []);
    assert [] + q + [] == q;
  }

  const PageWithCrCrLf: Text := [0x61, CR, CR, LF, 0x62]
  const OncePage: Text := [0x61, CR, LF, 0x62]
  const TwicePage: Text := [0x61, LF, 0x62]

  lemma BreaksOfOnce()
    ensures UnixBreaks(OncePage) == TwicePage
  {
    assert OncePage[1..] == [CR, LF, 0x62] && [CR, LF, 0x62][2..] == [0x62];
    assert UnixBreaks([0x62]) == [0x62];
  }

  lemma BreaksOfPage()
    ensures UnixBreaks(PageWithCrCrLf) == OncePage
  {
    assert PageWithCrCrLf[1..] == [CR] + OncePage[1..] && ([CR] + OncePage[1..])[1..] == OncePage[1..];
    assert OncePage[1..] == [CR, LF, 0x62] && [CR, LF, 0x62][2..] == [0x62];
    assert UnixBreaks([0x62]) == [0x62];
    assert UnixBreaks(OncePage[1..]) == [LF, 0x62];
  }

  lemma NormalizeSmall(s: Text, t: Text)
    requires s != [] && Trimmed(s) && UnixBreaks(s) == t && Squeezed(t)
    ensures Normalize(s) == t
  {
    NormalizeTrimmed(s);
    TrimOf([], s, []);
    assert [] + s + [] == s;
    SqueezedStays(t);
  }

  /** "a\r\r\nb" becomes "a\r\nb", and then "a\nb". */
  lemma TwiceDiffers()
    ensures Normalize(PageWithCrCrLf) == OncePage && Normalize(OncePage) == TwicePage && OncePage != TwicePage
  {
    BreaksOfPage();
    NormalizeSmall(PageWithCrCrLf, OncePage);
    BreaksOfOnce();
    NormalizeSmall(OncePage, TwicePage);
  }
}
