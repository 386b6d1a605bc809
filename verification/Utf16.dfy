/** Program strings: sequences of UTF-16 code units, which need not be well formed, and their UTF-8 hashing. */
module Utf16 {

  type Unit = n: nat | n < 0x1_0000

  type Text = seq<Unit>

  predicate IsHigh(u: Unit) {
    0xD800 <= u < 0xDC00
  }

  predicate IsLow(u: Unit) {
    0xDC00 <= u < 0xE000
  }

  predicate StartsWithPair(s: Text) {
    |s| >= 2 && IsHigh(s[0]) && IsLow(s[1])
  }

  /** Every surrogate is half of a pair. */
  predicate WellFormed(s: Text) {
    s == [] ||
    (if StartsWithPair(s) then WellFormed(s[2..]) else !IsHigh(s[0]) && !IsLow(s[0]) && WellFormed(s[1..]))
  }

  function PairValue(high: nat, low: nat): nat
    requires 0xD800 <= high < 0xDC00 <= low < 0xE000
  {
    0x1_0000 + (high - 0xD800) * 0x400 + (low - 0xDC00)
  }

  /** The code points that UTF-8 encoding writes out: an unpaired surrogate becomes U+FFFD. */
  function CodePoints(s: Text): seq<nat> {
    if s == [] then []
    else if StartsWithPair(s) then [PairValue(s[0], s[1])] + CodePoints(s[2..])
    else if IsHigh(s[0]) || IsLow(s[0]) then [0xFFFD] + CodePoints(s[1..])
    else [s[0]] + CodePoints(s[1..])
  }

  /** SHA-256 of a string's UTF-8 bytes, taken to be injective on the bytes. */
  datatype Digest = Sha256(codePoints: seq<nat>)

  function Hash(s: Text): Digest {
    Sha256(CodePoints(s))
  }

  lemma {:induction false} WellFormedConcat(a: Text, b: Text)
    requires WellFormed(a) && WellFormed(b)
    ensures WellFormed(a + b)
  {
    if a == [] {
      assert a + b == b;
    } else if StartsWithPair(a) {
      WellFormedConcat(a[2..], b);
      assert (a + b)[2..] == a[2..] + b;
    } else {
      WellFormedConcat(a[1..], b);
      assert (a + b)[1..] == a[1..] + b;
    }
  }

  /** UTF-8 loses nothing of a well-formed string. */
  lemma {:induction false} CodePointsInjective(a: Text, b: Text)
    requires WellFormed(a) && WellFormed(b) && CodePoints(a) == CodePoints(b)
    ensures a == b
  {
    if a == [] || b == [] {
    } else {
      assert CodePoints(a)[0] == CodePoints(b)[0];
      assert CodePoints(a)[1..] == CodePoints(b)[1..];
      if StartsWithPair(a) {
        assert StartsWithPair(b) && a[0] == b[0] && a[1] == b[1];
        CodePointsInjective(a[2..], b[2..]);
        assert a == a[..2] + a[2..] && b == b[..2] + b[2..] && a[..2] == b[..2];
      } else {
        CodePointsInjective(a[1..], b[1..]);
        assert a == [a[0]] + a[1..] && b == [b[0]] + b[1..];
      }
    }
  }

  /** Two strings hash alike exactly when they are equal, provided both are well formed. */
  lemma HashInjective(a: Text, b: Text)
    requires WellFormed(a) && WellFormed(b)
    ensures Hash(a) == Hash(b) <==> a == b
  {
    if Hash(a) == Hash(b) {
      CodePointsInjective(a, b);
    }
  }
}
