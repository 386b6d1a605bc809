/**
 * `JSON.stringify` and a parser for its output (RFC 8259 without insignificant white space).  Strings are escaped
 * as in section 7 of RFC 8259 and, as in current engines, unpaired surrogates are escaped too.
 */
module Json {
  import opened Wrappers
  import opened Utf16

  /** An object's fields stand in the order in which its keys are enumerated. */
  datatype Value = Null | Bool(b: bool) | Num(n: int) | Str(s: Text) | Arr(items: seq<Value>) | Obj(fields: seq<Field>)

  datatype Field = Field(key: Text, value: Value)

  const QUOTE: Unit := 0x22
  const COMMA: Unit := 0x2C
  const MINUS: Unit := 0x2D
  const COLON: Unit := 0x3A
  const BACKSLASH: Unit := 0x5C
  const OPEN_ARRAY: Unit := 0x5B
  const CLOSE_ARRAY: Unit := 0x5D
  const OPEN_OBJECT: Unit := 0x7B
  const CLOSE_OBJECT: Unit := 0x7D
  const NULL: Text := [0x6E, 0x75, 0x6C, 0x6C]
  const TRUE: Text := [0x74, 0x72, 0x75, 0x65]
  const FALSE: Text := [0x66, 0x61, 0x6C, 0x73, 0x65]

  // ----- printing -----

  predicate IsDigit(u: Unit) {
    0x30 <= u <= 0x39
  }

  function Digits(n: nat): Text {
    if n < 10 then [0x30 + n] else Digits(n / 10) + [0x30 + n % 10]
  }

  function PrintInt(n: int): Text {
    if n < 0 then [MINUS] + Digits(-n) else Digits(n)
  }

  function HexDigit(n: nat): Unit
    requires n < 16
  {
    if n < 10 then 0x30 + n else 0x61 + n - 10
  }

  /** \uxxxx with lower-case digits. */
  function HexEscape(u: Unit): Text {
    [BACKSLASH, 0x75, HexDigit(u / 4096), HexDigit(u / 256 % 16), HexDigit(u / 16 % 16), HexDigit(u % 16)]
  }

  /** The letter of a two-unit escape; 0 if the unit has none. */
  function ShortEscape(u: Unit): Unit {
    if u == QUOTE || u == BACKSLASH then u
    else if u == 0x08 then 0x62
    else if u == 0x09 then 0x74
    else if u == 0x0A then 0x6E
    else if u == 0x0C then 0x66
    else if u == 0x0D then 0x72
    else 0
  }

  function EscapeUnit(u: Unit): Text {
    if ShortEscape(u) != 0 then [BACKSLASH, ShortEscape(u)]
    else if u < 0x20 || IsHigh(u) || IsLow(u) then HexEscape(u)
    else [u]
  }

  function Escape(s: Text): Text {
    if s == [] then []
    else if StartsWithPair(s) then [s[0], s[1]] + Escape(s[2..])
    else EscapeUnit(s[0]) + Escape(s[1..])
  }

  function PrintString(s: Text): Text {
    [QUOTE] + Escape(s) + [QUOTE]
  }

  function Print(v: Value): Text
    decreases v, 0
  {
    match v
    case Null => NULL
    case Bool(b) => if b then TRUE else FALSE
    case Num(n) => PrintInt(n)
    case Str(s) => PrintString(s)
    case Arr(items) => [OPEN_ARRAY] + PrintItems(items) + [CLOSE_ARRAY]
    case Obj(fields) => [OPEN_OBJECT] + PrintFields(fields) + [CLOSE_OBJECT]
  }

  function PrintItems(items: seq<Value>): Text
    decreases items, 1
  {
    if items == [] then []
    else if |items| == 1 then Print(items[0])
    else Print(items[0]) + [COMMA] + PrintItems(items[1..])
  }

  function PrintField(f: Field): Text
    decreases f, 1
  {
    PrintString(f.key) + [COLON] + Print(f.value)
  }

  function PrintFields(fields: seq<Field>): Text
    decreases fields, 1
  {
    if fields == [] then []
    else if |fields| == 1 then PrintField(fields[0])
    else PrintField(fields[0]) + [COMMA] + PrintFields(fields[1..])
  }

  // ----- parsing -----

  datatype Parsed<T> = Parsed(value: T, rest: Text)

  function ScanDigits(text: Text, value: nat): Parsed<nat> {
    if text != [] && IsDigit(text[0]) then ScanDigits(text[1..], value * 10 + (text[0] - 0x30)) else Parsed(value, text)
  }

  function HexValue(u: Unit): Option<nat> {
    if 0x30 <= u <= 0x39 then Some(u - 0x30)
    else if 0x61 <= u <= 0x66 then Some(u - 0x61 + 10)
    else if 0x41 <= u <= 0x46 then Some(u - 0x41 + 10)
    else None
  }

  function LetterValue(u: Unit): Option<Unit> {
    if u == QUOTE || u == BACKSLASH || u == 0x2F then Some(u)
    else if u == 0x62 then Some(0x08)
    else if u == 0x74 then Some(0x09)
    else if u == 0x6E then Some(0x0A)
    else if u == 0x66 then Some(0x0C)
    else if u == 0x72 then Some(0x0D)
    else None
  }

  /** One unit of a string body: a literal unit or an escape. */
  function ParseUnit(text: Text): (r: Option<Parsed<Unit>>)
    ensures r.Some? ==> |r.value.rest| < |text|
  {
    if text == [] || text[0] == QUOTE || text[0] < 0x20 then None
    else if text[0] != BACKSLASH then Some(Parsed(text[0], text[1..]))
    else if |text| >= 2 && LetterValue(text[1]).Some? then Some(Parsed(LetterValue(text[1]).value, text[2..]))
    else if |text| >= 6 && text[1] == 0x75 && HexValue(text[2]).Some? && HexValue(text[3]).Some? &&
            HexValue(text[4]).Some? && HexValue(text[5]).Some? then
      Some(Parsed(HexValue(text[2]).value * 4096 + HexValue(text[3]).value * 256 +
                  HexValue(text[4]).value * 16 + HexValue(text[5]).value, text[6..]))
    else None
  }

  /** A string body up to and including its closing quote. */
  function ParseBody(text: Text): (r: Option<Parsed<Text>>)
    ensures r.Some? ==> |r.value.rest| < |text|
    decreases |text|
  {
    if text != [] && text[0] == QUOTE then Some(Parsed([], text[1..]))
    else
      match ParseUnit(text)
      case None => None
      case Some(Parsed(u, rest)) =>
        match ParseBody(rest)
        case None => None
        case Some(Parsed(more, tail)) => Some(Parsed([u] + more, tail))
  }

  function ParseNumber(text: Text): (r: Option<Parsed<Value>>)
    ensures r.Some? ==> |r.value.rest| < |text|
  {
    if text != [] && IsDigit(text[0]) then
      ScanShrinks(text[1..], text[0] - 0x30);
      var scanned := ScanDigits(text, 0);
      Some(Parsed(Num(scanned.value), scanned.rest))
    else if |text| >= 2 && text[0] == MINUS && IsDigit(text[1]) then
      ScanShrinks(text[1..], 0);
      var scanned := ScanDigits(text[1..], 0);
      Some(Parsed(Num(0 - scanned.value), scanned.rest))
    else None
  }

  lemma ScanShrinks(text: Text, value: nat)
    ensures |ScanDigits(text, value).rest| <= |text|
  {
  }

  function ParseValue(text: Text): (r: Option<Parsed<Value>>)
    ensures r.Some? ==> |r.value.rest| < |text|
    decreases |text|, 1
  {
    if text == [] then None
    else if NULL <= text then Some(Parsed(Null, text[4..]))
    else if TRUE <= text then Some(Parsed(Bool(true), text[4..]))
    else if FALSE <= text then Some(Parsed(Bool(false), text[5..]))
    else if text[0] == QUOTE then
      match ParseBody(text[1..])
      case None => None
      case Some(Parsed(s, rest)) => Some(Parsed(Str(s), rest))
    else if text[0] == OPEN_ARRAY then
      if |text| >= 2 && text[1] == CLOSE_ARRAY then Some(Parsed(Arr([]), text[2..]))
      else
        match ParseItems(text[1..])
        case None => None
        case Some(Parsed(items, rest)) => Some(Parsed(Arr(items), rest))
    else if text[0] == OPEN_OBJECT then
      if |text| >= 2 && text[1] == CLOSE_OBJECT then Some(Parsed(Obj([]), text[2..]))
      else
        match ParseFields(text[1..])
        case None => None
        case Some(Parsed(fields, rest)) => Some(Parsed(Obj(fields), rest))
    else ParseNumber(text)
  }

  /** One or more items up to and including the closing bracket. */
  function ParseItems(text: Text): (r: Option<Parsed<seq<Value>>>)
    ensures r.Some? ==> |r.value.rest| < |text|
    decreases |text|, 2
  {
    match ParseValue(text)
    case None => None
    case Some(Parsed(v, rest)) =>
      if rest != [] && rest[0] == CLOSE_ARRAY then Some(Parsed([v], rest[1..]))
      else if rest != [] && rest[0] == COMMA then
        match ParseItems(rest[1..])
        case None => None
        case Some(Parsed(more, tail)) => Some(Parsed([v] + more, tail))
      else None
  }

  function ParseField(text: Text): (r: Option<Parsed<Field>>)
    ensures r.Some? ==> |r.value.rest| < |text|
    decreases |text|, 2
  {
    if text == [] || text[0] != QUOTE then None
    else
      match ParseBody(text[1..])
      case None => None
      case Some(Parsed(key, rest)) =>
        if rest == [] || rest[0] != COLON then None
        else
          match ParseValue(rest[1..])
          case None => None
          case Some(Parsed(v, tail)) => Some(Parsed(Field(key, v), tail))
  }

  /** One or more fields up to and including the closing brace. */
  function ParseFields(text: Text): (r: Option<Parsed<seq<Field>>>)
    ensures r.Some? ==> |r.value.rest| < |text|
    decreases |text|, 3
  {
    match ParseField(text)
    case None => None
    case Some(Parsed(f, rest)) =>
      if rest != [] && rest[0] == CLOSE_OBJECT then Some(Parsed([f], rest[1..]))
      else if rest != [] && rest[0] == COMMA then
        match ParseFields(rest[1..])
        case None => None
        case Some(Parsed(more, tail)) => Some(Parsed([f] + more, tail))
      else None
  }
}
