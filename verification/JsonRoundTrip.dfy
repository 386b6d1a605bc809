/** The parser recovers every value from its print, whatever safe text follows; so prints determine values. */
module JsonRoundTrip {
  import opened Wrappers
  import opened Utf16
  import opened Json

  /** Text that cannot prolong a number. */
  predicate Safe(rest: Text) {
    rest == [] || !IsDigit(rest[0])
  }

  // ----- strings -----

  lemma HexDigitValue(n: nat)
    requires n < 16
    ensures HexValue(HexDigit(n)) == Some(n)
  {
  }

  lemma HexSum(u: Unit)
    ensures u / 4096 < 16
    ensures u / 4096 * 4096 + u / 256 % 16 * 256 + u / 16 % 16 * 16 + u % 16 == u
  {
  }

  lemma ParseEscapedUnit(u: Unit, rest: Text)
    ensures ParseUnit(EscapeUnit(u) + rest) == Some(Parsed(u, rest))
    ensures EscapeUnit(u) != [] && EscapeUnit(u)[0] != QUOTE
  {
    var text := EscapeUnit(u) + rest;
    if ShortEscape(u) != 0 {
      assert text[2..] == rest && text[1] == ShortEscape(u);
    } else if u < 0x20 || IsHigh(u) || IsLow(u) {
      HexSum(u);
      HexDigitValue(u / 4096);
      HexDigitValue(u / 256 % 16);
      HexDigitValue(u / 16 % 16);
      HexDigitValue(u % 16);
      assert text[6..] == rest && text[..6] == HexEscape(u);
      assert LetterValue(text[1]).None?;
      assert text[2] == HexDigit(u / 4096) && text[3] == HexDigit(u / 256 % 16);
      assert text[4] == HexDigit(u / 16 % 16) && text[5] == HexDigit(u % 16);
    } else {
      assert text[1..] == rest;
    }
  }

  /** A body whose first unit parses to u and leaves `tail`. */
  lemma BodyStep(text: Text, u: Unit, tail: Text, more: Text, rest: Text)
    requires ParseUnit(text) == Some(Parsed(u, tail)) && ParseBody(tail) == Some(Parsed(more, rest))
    ensures ParseBody(text) == Some(Parsed([u] + more, rest))
  {
  }

  lemma LiteralUnit(u: Unit, tail: Text)
    requires u >= 0x20 && u != QUOTE && u != BACKSLASH
    ensures ParseUnit([u] + tail) == Some(Parsed(u, tail))
  {
    assert ([u] + tail)[1..] == tail;
  }

  lemma EmptyBody(rest: Text)
    ensures ParseBody(Escape([]) + [QUOTE] + rest) == Some(Parsed([], rest))
  {
    assert Escape([]) + [QUOTE] + rest == [QUOTE] + rest && ([QUOTE] + rest)[1..] == rest;
  }

  lemma PairBody(high: Unit, low: Unit, tail: Text, more: Text, rest: Text)
    requires IsHigh(high) && IsLow(low) && ParseBody(tail) == Some(Parsed(more, rest))
    ensures ParseBody([high] + ([low] + tail)) == Some(Parsed([high] + ([low] + more), rest))
  {
    LiteralUnit(low, tail);
    BodyStep([low] + tail, low, tail, more, rest);
    LiteralUnit(high, [low] + tail);
    BodyStep([high] + ([low] + tail), high, [low] + tail, [low] + more, rest);
  }

  lemma EscapePair(s: Text, rest: Text)
    requires StartsWithPair(s)
    ensures Escape(s) + [QUOTE] + rest == [s[0]] + ([s[1]] + (Escape(s[2..]) + [QUOTE] + rest))
    ensures [s[0]] + ([s[1]] + s[2..]) == s
  {
  }

  lemma EscapeFirst(s: Text, rest: Text)
    requires s != [] && !StartsWithPair(s)
    ensures Escape(s) + [QUOTE] + rest == EscapeUnit(s[0]) + (Escape(s[1..]) + [QUOTE] + rest)
    ensures [s[0]] + s[1..] == s
  {
    var first, more := EscapeUnit(s[0]), Escape(s[1..]);
    assert first + more + [QUOTE] + rest == first + (more + [QUOTE] + rest);
  }

  lemma {:induction false} ParseEscapedBody(s: Text, rest: Text)
    ensures ParseBody(Escape(s) + [QUOTE] + rest) == Some(Parsed(s, rest))
  {
    if s == [] {
      EmptyBody(rest);
    } else if StartsWithPair(s) {
      ParseEscapedBody(s[2..], rest);
      EscapePair(s, rest);
      PairBody(s[0], s[1], Escape(s[2..]) + [QUOTE] + rest, s[2..], rest);
    } else {
      ParseEscapedBody(s[1..], rest);
      EscapeFirst(s, rest);
      var tail := Escape(s[1..]) + [QUOTE] + rest;
      ParseEscapedUnit(s[0], tail);
      BodyStep(EscapeUnit(s[0]) + tail, s[0], tail, s[1..], rest);
    }
  }

  lemma ParsePrintedString(s: Text, rest: Text)
    ensures var text := PrintString(s) + rest; text[0] == QUOTE && ParseBody(text[1..]) == Some(Parsed(s, rest))
  {
    ParseEscapedBody(s, rest);
    var e := Escape(s);
    assert ([QUOTE] + e + [QUOTE] + rest)[1..] == e + [QUOTE] + rest;
  }

  // ----- numbers -----

  lemma {:induction false} ScanPrintedDigits(n: nat, rest: Text)
    ensures ScanDigits(Digits(n) + rest, 0) == ScanDigits(rest, n)
    ensures Digits(n) != [] && IsDigit(Digits(n)[0])
    decreases n
  {
    if n < 10 {
      assert ([0x30 + n] + rest)[1..] == rest;
    } else {
      var last: Text := [0x30 + n % 10];
      ScanPrintedDigits(n / 10, last + rest);
      assert Digits(n) + rest == Digits(n / 10) + (last + rest);
      assert (last + rest)[1..] == rest;
      assert n / 10 * 10 + n % 10 == n;
    }
  }

  lemma {:induction false} DigitsForm(n: nat)
    ensures Digits(n) != [] && (forall u :: u in Digits(n) ==> IsDigit(u)) && (Digits(n)[0] == 0x30 <==> n == 0)
  {
    if n >= 10 {
      DigitsForm(n / 10);
      assert Digits(n)[0] == Digits(n / 10)[0];
    }
  }

  /** A minus sign exactly for negative numbers, then digits without a leading zero. */
  lemma PrintIntForm(n: int)
    ensures var text := PrintInt(n);
            text != [] && (text[0] == MINUS <==> n < 0) &&
            var digits := if n < 0 then text[1..] else text;
            digits != [] && (forall u :: u in digits ==> 0x30 <= u <= 0x39) && (digits[0] == 0x30 <==> n == 0)
  {
    if n < 0 {
      DigitsForm(-n);
      assert PrintInt(n)[1..] == Digits(-n);
    } else {
      DigitsForm(n);
      assert Digits(n)[0] in Digits(n);
    }
  }

  lemma ParseDigits(n: nat, rest: Text)
    requires Safe(rest)
    ensures ParseNumber(Digits(n) + rest) == Some(Parsed(Num(n), rest))
  {
    ScanPrintedDigits(n, rest);
  }

  lemma ParseMinus(n: nat, rest: Text)
    requires Safe(rest)
    ensures ParseNumber([MINUS] + (Digits(n) + rest)) == Some(Parsed(Num(-(n as int)), rest))
  {
    ScanPrintedDigits(n, rest);
    assert ([MINUS] + (Digits(n) + rest))[1..] == Digits(n) + rest;
  }

  lemma ParsePrintedInt(n: int, rest: Text)
    requires Safe(rest)
    ensures ParseNumber(PrintInt(n) + rest) == Some(Parsed(Num(n), rest))
    ensures PrintInt(n) != [] && (IsDigit(PrintInt(n)[0]) || PrintInt(n)[0] == MINUS)
  {
    if n < 0 {
      ParseMinus(-n, rest);
      assert PrintInt(n) + rest == [MINUS] + (Digits(-n) + rest);
    } else {
      ParseDigits(n, rest);
      ScanPrintedDigits(n, rest);
    }
  }

  // ----- values -----

  /** No print starts with a closing bracket or brace. */
  lemma PrintStarts(v: Value)
    ensures Print(v) != [] && Print(v)[0] != CLOSE_ARRAY && Print(v)[0] != CLOSE_OBJECT
  {
    if v.Num? {
      ParsePrintedInt(v.n, []);
    }
  }

  lemma ItemsStart(items: seq<Value>)
    requires items != []
    ensures PrintItems(items) != [] && PrintItems(items)[0] != CLOSE_ARRAY
  {
    PrintStarts(items[0]);
  }

  lemma FieldsStart(fields: seq<Field>)
    requires fields != []
    ensures PrintFields(fields) != [] && PrintFields(fields)[0] == QUOTE
  {
  }

  /** Round trip: parsing the print of v, followed by anything safe, gives v and leaves exactly that. */
  lemma {:induction false} ParsePrinted(v: Value, rest: Text)
    requires Safe(rest)
    ensures ParseValue(Print(v) + rest) == Some(Parsed(v, rest))
    decreases v, 1
  {
    var text := Print(v) + rest;
    match v
    case Null =>
      assert text[..4] == NULL && text[4..] == rest;
    case Bool(b) =>
      if b {
        assert text[..4] == TRUE && text[4..] == rest && text[0] != NULL[0];
      } else {
        assert text[..5] == FALSE && text[5..] == rest && text[0] != NULL[0] && text[0] != TRUE[0];
      }
    case Num(n) =>
      ParsePrintedInt(n, rest);
      assert text[0] == PrintInt(n)[0];
    case Str(s) =>
      ParsePrintedString(s, rest);
    case Arr(items) =>
      ParsePrintedArray(items, rest);
    case Obj(fields) =>
      ParsePrintedObject(fields, rest);
  }

  lemma EmptyArrayParses(rest: Text)
    ensures ParseValue([OPEN_ARRAY, CLOSE_ARRAY] + rest) == Some(Parsed(Arr([]), rest))
  {
    var text := [OPEN_ARRAY, CLOSE_ARRAY] + rest;
    assert text[0] == OPEN_ARRAY && text[1] == CLOSE_ARRAY && text[2..] == rest;
  }

  lemma ArrayParses(inner: Text, items: seq<Value>, rest: Text)
    requires inner != [] && inner[0] != CLOSE_ARRAY && ParseItems(inner) == Some(Parsed(items, rest))
    ensures ParseValue([OPEN_ARRAY] + inner) == Some(Parsed(Arr(items), rest))
  {
    var text := [OPEN_ARRAY] + inner;
    assert text[0] == OPEN_ARRAY && text[1] == inner[0] && text[1..] == inner;
  }

  lemma {:induction false} ParsePrintedArray(items: seq<Value>, rest: Text)
    ensures ParseValue(Print(Arr(items)) + rest) == Some(Parsed(Arr(items), rest))
    decreases items, 2
  {
    if items == [] {
      EmptyArrayParses(rest);
      assert Print(Arr(items)) + rest == [OPEN_ARRAY, CLOSE_ARRAY] + rest;
    } else {
      var inner := PrintItems(items) + [CLOSE_ARRAY] + rest;
      ItemsStart(items);
      ParsePrintedItems(items, rest);
      ArrayParses(inner, items, rest);
      assert Print(Arr(items)) + rest == [OPEN_ARRAY] + inner;
    }
  }

  lemma LastItem(p: Text, v: Value, rest: Text)
    requires ParseValue(p + ([CLOSE_ARRAY] + rest)) == Some(Parsed(v, [CLOSE_ARRAY] + rest))
    ensures ParseItems(p + ([CLOSE_ARRAY] + rest)) == Some(Parsed([v], rest))
  {
    assert ([CLOSE_ARRAY] + rest)[1..] == rest;
  }

  lemma NextItem(p: Text, v: Value, tail: Text, more: seq<Value>, rest: Text)
    requires ParseValue(p + ([COMMA] + tail)) == Some(Parsed(v, [COMMA] + tail))
    requires ParseItems(tail) == Some(Parsed(more, rest))
    ensures ParseItems(p + ([COMMA] + tail)) == Some(Parsed([v] + more, rest))
  {
    assert ([COMMA] + tail)[1..] == tail;
  }

  lemma Regroup(a: Text, b: Text, c: Text, d: Text, e: Text)
    ensures a + b + c + d + e == a + (b + (c + d + e))
  {
  }

  lemma OneItemText(items: seq<Value>, rest: Text)
    requires |items| == 1
    ensures PrintItems(items) + [CLOSE_ARRAY] + rest == Print(items[0]) + ([CLOSE_ARRAY] + rest)
  {
  }

  lemma ItemsText(items: seq<Value>, rest: Text)
    requires |items| > 1
    ensures PrintItems(items) + [CLOSE_ARRAY] + rest ==
            Print(items[0]) + ([COMMA] + (PrintItems(items[1..]) + [CLOSE_ARRAY] + rest))
  {
    Regroup(Print(items[0]), [COMMA], PrintItems(items[1..]), [CLOSE_ARRAY], rest);
  }

  lemma ItemsStep(items: seq<Value>, tail: Text, rest: Text)
    requires |items| > 1 && tail == PrintItems(items[1..]) + [CLOSE_ARRAY] + rest
    requires ParseValue(Print(items[0]) + ([COMMA] + tail)) == Some(Parsed(items[0], [COMMA] + tail))
    requires ParseItems(tail) == Some(Parsed(items[1..], rest))
    ensures ParseItems(PrintItems(items) + [CLOSE_ARRAY] + rest) == Some(Parsed(items, rest))
  {
    ItemsText(items, rest);
    NextItem(Print(items[0]), items[0], tail, items[1..], rest);
    assert items == [items[0]] + items[1..];
  }

  lemma {:induction false} ParsePrintedItems(items: seq<Value>, rest: Text)
    requires items != []
    ensures ParseItems(PrintItems(items) + [CLOSE_ARRAY] + rest) == Some(Parsed(items, rest))
    decreases items, 1
  {
    if |items| == 1 {
      OneItemText(items, rest);
      ParsePrinted(items[0], [CLOSE_ARRAY] + rest);
      LastItem(Print(items[0]), items[0], rest);
      assert items == [items[0]];
    } else {
      var tail := PrintItems(items[1..]) + [CLOSE_ARRAY] + rest;
      ParsePrinted(items[0], [COMMA] + tail);
      ParsePrintedItems(items[1..], rest);
      ItemsStep(items, tail, rest);
    }
  }

  lemma EmptyObjectParses(rest: Text)
    ensures ParseValue([OPEN_OBJECT, CLOSE_OBJECT] + rest) == Some(Parsed(Obj([]), rest))
  {
    var text := [OPEN_OBJECT, CLOSE_OBJECT] + rest;
    assert text[0] == OPEN_OBJECT && text[1] == CLOSE_OBJECT && text[2..] == rest;
  }

  lemma ObjectParses(inner: Text, fields: seq<Field>, rest: Text)
    requires inner != [] && inner[0] != CLOSE_OBJECT && ParseFields(inner) == Some(Parsed(fields, rest))
    ensures ParseValue([OPEN_OBJECT] + inner) == Some(Parsed(Obj(fields), rest))
  {
    var text := [OPEN_OBJECT] + inner;
    assert text[0] == OPEN_OBJECT && text[1] == inner[0] && text[1..] == inner;
  }

  lemma {:induction false} ParsePrintedObject(fields: seq<Field>, rest: Text)
    ensures ParseValue(Print(Obj(fields)) + rest) == Some(Parsed(Obj(fields), rest))
    decreases fields, 4
  {
    if fields == [] {
      EmptyObjectParses(rest);
      assert Print(Obj(fields)) + rest == [OPEN_OBJECT, CLOSE_OBJECT] + rest;
    } else {
      var inner := PrintFields(fields) + [CLOSE_OBJECT] + rest;
      FieldsStart(fields);
      ParsePrintedFields(fields, rest);
      ObjectParses(inner, fields, rest);
      assert Print(Obj(fields)) + rest == [OPEN_OBJECT] + inner;
    }
  }

  lemma FieldParts(key: Text, v: Value, p: Text, rest: Text)
    requires ParseValue(p + rest) == Some(Parsed(v, rest))
    ensures ParseField(PrintString(key) + ([COLON] + (p + rest))) == Some(Parsed(Field(key, v), rest))
  {
    ParsePrintedString(key, [COLON] + (p + rest));
    assert ([COLON] + (p + rest))[1..] == p + rest;
  }

  lemma FieldText(f: Field, rest: Text)
    ensures PrintField(f) + rest == PrintString(f.key) + ([COLON] + (Print(f.value) + rest))
  {
  }

  lemma {:induction false} ParsePrintedField(f: Field, rest: Text)
    requires Safe(rest)
    ensures ParseField(PrintField(f) + rest) == Some(Parsed(f, rest))
    decreases f, 2
  {
    FieldText(f, rest);
    ParsePrinted(f.value, rest);
    FieldParts(f.key, f.value, Print(f.value), rest);
  }

  lemma LastField(p: Text, f: Field, rest: Text)
    requires ParseField(p + ([CLOSE_OBJECT] + rest)) == Some(Parsed(f, [CLOSE_OBJECT] + rest))
    ensures ParseFields(p + ([CLOSE_OBJECT] + rest)) == Some(Parsed([f], rest))
  {
    assert ([CLOSE_OBJECT] + rest)[1..] == rest;
  }

  lemma NextField(p: Text, f: Field, tail: Text, more: seq<Field>, rest: Text)
    requires ParseField(p + ([COMMA] + tail)) == Some(Parsed(f, [COMMA] + tail))
    requires ParseFields(tail) == Some(Parsed(more, rest))
    ensures ParseFields(p + ([COMMA] + tail)) == Some(Parsed([f] + more, rest))
  {
    assert ([COMMA] + tail)[1..] == tail;
  }

  lemma OneFieldText(fields: seq<Field>, rest: Text)
    requires |fields| == 1
    ensures PrintFields(fields) + [CLOSE_OBJECT] + rest == PrintField(fields[0]) + ([CLOSE_OBJECT] + rest)
  {
  }

  lemma FieldsText(fields: seq<Field>, rest: Text)
    requires |fields| > 1
    ensures PrintFields(fields) + [CLOSE_OBJECT] + rest ==
            PrintField(fields[0]) + ([COMMA] + (PrintFields(fields[1..]) + [CLOSE_OBJECT] + rest))
  {
    Regroup(PrintField(fields[0]), [COMMA], PrintFields(fields[1..]), [CLOSE_OBJECT], rest);
  }

  lemma FieldsStep(fields: seq<Field>, tail: Text, rest: Text)
    requires |fields| > 1 && tail == PrintFields(fields[1..]) + [CLOSE_OBJECT] + rest
    requires ParseField(PrintField(fields[0]) + ([COMMA] + tail)) == Some(Parsed(fields[0], [COMMA] + tail))
    requires ParseFields(tail) == Some(Parsed(fields[1..], rest))
    ensures ParseFields(PrintFields(fields) + [CLOSE_OBJECT] + rest) == Some(Parsed(fields, rest))
  {
    FieldsText(fields, rest);
    NextField(PrintField(fields[0]), fields[0], tail, fields[1..], rest);
    assert fields == [fields[0]] + fields[1..];
  }

  lemma OneFieldStep(fields: seq<Field>, rest: Text)
    requires |fields| == 1
    requires ParseField(PrintField(fields[0]) + ([CLOSE_OBJECT] + rest)) == Some(Parsed(fields[0], [CLOSE_OBJECT] + rest))
    ensures ParseFields(PrintFields(fields) + [CLOSE_OBJECT] + rest) == Some(Parsed(fields, rest))
  {
    OneFieldText(fields, rest);
    LastField(PrintField(fields[0]), fields[0], rest);
    assert fields == [fields[0]];
  }

  lemma {:induction false} ParsePrintedFields(fields: seq<Field>, rest: Text)
    requires fields != []
    ensures ParseFields(PrintFields(fields) + [CLOSE_OBJECT] + rest) == Some(Parsed(fields, rest))
    decreases fields, 3
  {
    if |fields| == 1 {
      ParsePrintedField(fields[0], [CLOSE_OBJECT] + rest);
      OneFieldStep(fields, rest);
    } else {
      var tail := PrintFields(fields[1..]) + [CLOSE_OBJECT] + rest;
      ParsePrintedField(fields[0], [COMMA] + tail);
      ParsePrintedFields(fields[1..], rest);
      FieldsStep(fields, tail, rest);
    }
  }

  /** `JSON.stringify` is injective on values with ordered fields. */
  lemma PrintInjective(v: Value, w: Value)
    ensures Print(v) == Print(w) <==> v == w
  {
    ParsePrinted(v, []);
    ParsePrinted(w, []);
    assert Print(v) + [] == Print(v) && Print(w) + [] == Print(w);
  }

  // ----- prints are well-formed text, so hashing their UTF-8 bytes loses nothing -----

  lemma PlainIsWellFormed(s: Text)
    requires forall i :: 0 <= i < |s| ==> !IsHigh(s[i]) && !IsLow(s[i])
    ensures WellFormed(s)
  {
    if s != [] {
      PlainIsWellFormed(s[1..]);
    }
  }

  lemma {:induction false} EscapeWellFormed(s: Text)
    ensures WellFormed(Escape(s))
  {
    if s == [] {
    } else if StartsWithPair(s) {
      EscapeWellFormed(s[2..]);
      assert Escape(s)[2..] == Escape(s[2..]);
    } else {
      EscapeWellFormed(s[1..]);
      PlainIsWellFormed(EscapeUnit(s[0]));
      WellFormedConcat(EscapeUnit(s[0]), Escape(s[1..]));
    }
  }

  lemma PrintStringWellFormed(s: Text)
    ensures WellFormed(PrintString(s))
  {
    EscapeWellFormed(s);
    PlainIsWellFormed([QUOTE]);
    WellFormedConcat([QUOTE], Escape(s));
    WellFormedConcat([QUOTE] + Escape(s), [QUOTE]);
  }

  lemma {:induction false} DigitsPlain(n: nat)
    ensures forall i :: 0 <= i < |Digits(n)| ==> !IsHigh(Digits(n)[i]) && !IsLow(Digits(n)[i])
  {
    if n >= 10 {
      DigitsPlain(n / 10);
    }
  }

  lemma {:induction false} PrintWellFormed(v: Value)
    ensures WellFormed(Print(v))
    decreases v, 0
  {
    match v
    case Null => PlainIsWellFormed(NULL);
    case Bool(b) =>
      PlainIsWellFormed(TRUE);
      PlainIsWellFormed(FALSE);
    case Num(n) =>
      DigitsPlain(if n < 0 then -n else n);
      PlainIsWellFormed(PrintInt(n));
    case Str(s) => PrintStringWellFormed(s);
    case Arr(items) =>
      PrintItemsWellFormed(items);
      Bracketed([OPEN_ARRAY], PrintItems(items), [CLOSE_ARRAY]);
    case Obj(fields) =>
      PrintFieldsWellFormed(fields);
      Bracketed([OPEN_OBJECT], PrintFields(fields), [CLOSE_OBJECT]);
  }

  lemma Bracketed(open: Text, inner: Text, close: Text)
    requires |open| == |close| == 1 && open[0] < 0x80 && close[0] < 0x80 && WellFormed(inner)
    ensures WellFormed(open + inner + close)
  {
    PlainIsWellFormed(open);
    PlainIsWellFormed(close);
    WellFormedConcat(open, inner);
    WellFormedConcat(open + inner, close);
  }

  lemma {:induction false} PrintItemsWellFormed(items: seq<Value>)
    ensures WellFormed(PrintItems(items))
    decreases items, 1
  {
    if items != [] {
      PrintWellFormed(items[0]);
      PrintItemsWellFormed(items[1..]);
      PlainIsWellFormed([COMMA]);
      WellFormedConcat(Print(items[0]), [COMMA]);
      WellFormedConcat(Print(items[0]) + [COMMA], PrintItems(items[1..]));
    }
  }

  lemma {:induction false} PrintFieldsWellFormed(fields: seq<Field>)
    ensures WellFormed(PrintFields(fields))
    decreases fields, 1
  {
    if fields != [] {
      var f := fields[0];
      PrintWellFormed(f.value);
      PrintStringWellFormed(f.key);
      PlainIsWellFormed([COLON]);
      PlainIsWellFormed([COMMA]);
      WellFormedConcat(PrintString(f.key), [COLON]);
      WellFormedConcat(PrintString(f.key) + [COLON], Print(f.value));
      PrintFieldsWellFormed(fields[1..]);
      WellFormedConcat(PrintField(f), [COMMA]);
      WellFormedConcat(PrintField(f) + [COMMA], PrintFields(fields[1..]));
    }
  }
}
