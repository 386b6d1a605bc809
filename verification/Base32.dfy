/**
 * Base32 as in section 6 of RFC 4648, without padding.  The encoder and the decoder shift bits
 * through accumulators that are never masked: they wrap at 32 bits, and only their lowest bits are
 * still wanted.
 */
module Base32 {
  import opened Wrappers
  import opened Utf16
  import opened Powers
  import PageText

  type Byte = n: nat | n < 256

  type Quintet = n: nat | n < 32

  const WORD: nat := 0x1_0000_0000

  // ----- bits, most significant first -----

  /** The n lowest bits of v. */
  function BitsOf(v: nat, n: nat): (bits: seq<bool>)
    ensures |bits| == n
    decreases n
  {
    if n == 0 then [] else BitsOf(v / 2, n - 1) + [v % 2 == 1]
  }

  function ValueOf(bits: seq<bool>): nat {
    if bits == [] then 0 else 2 * ValueOf(bits[..|bits| - 1]) + if bits[|bits| - 1] then 1 else 0
  }

  function Zeros(n: nat): (bits: seq<bool>)
    ensures |bits| == n
  {
    if n == 0 then [] else Zeros(n - 1) + [false]
  }

  function BytesBits(bytes: seq<Byte>): seq<bool> {
    if bytes == [] then [] else BitsOf(bytes[0], 8) + BytesBits(bytes[1..])
  }

  function QuintetsBits(quintets: seq<Quintet>): seq<bool> {
    if quintets == [] then [] else BitsOf(quintets[0], 5) + QuintetsBits(quintets[1..])
  }

  lemma {:induction false} ValueBound(bits: seq<bool>)
    ensures ValueOf(bits) < PowerOfTwo(|bits|)
  {
    if bits != [] {
      ValueBound(bits[..|bits| - 1]);
    }
  }

  lemma {:induction false} BitsOfValue(bits: seq<bool>)
    ensures BitsOf(ValueOf(bits), |bits|) == bits
  {
    if bits != [] {
      BitsOfValue(bits[..|bits| - 1]);
      assert bits == bits[..|bits| - 1] + [bits[|bits| - 1]];
    }
  }

  lemma {:induction false} ValueOfBits(v: nat, n: nat)
    requires v < PowerOfTwo(n)
    ensures ValueOf(BitsOf(v, n)) == v
    decreases n
  {
    if n > 0 {
      ValueOfBits(v / 2, n - 1);
      assert BitsOf(v, n)[..n - 1] == BitsOf(v / 2, n - 1);
    }
  }

  /** The lowest n bits do not see multiples of 2^m for m >= n. */
  lemma {:induction false} AddMultiple(v: nat, k: nat, n: nat, m: nat)
    requires n <= m
    ensures BitsOf(v + k * PowerOfTwo(m), n) == BitsOf(v, n)
    decreases n
  {
    if n > 0 {
      var t := k * PowerOfTwo(m - 1);
      assert k * PowerOfTwo(m) == 2 * t;
      AddMultiple(v / 2, k, n - 1, m - 1);
      assert (v + 2 * t) / 2 == v / 2 + t && (v + 2 * t) % 2 == v % 2;
    }
  }

  lemma PowersUsed()
    ensures PowerOfTwo(5) == 32 && PowerOfTwo(8) == 256 && PowerOfTwo(32) == WORD
  {
    assert PowerOfTwo(4) == 16 && PowerOfTwo(8) == 256;
    assert PowerOfTwo(12) == 4096 && PowerOfTwo(16) == 65536;
    assert PowerOfTwo(20) == 1048576 && PowerOfTwo(24) == 16777216 && PowerOfTwo(28) == 268435456;
  }

  lemma Divide(v: nat, p: nat) returns (quotient: nat, rest: nat)
    requires p > 0
    ensures rest == v % p && v == rest + quotient * p
  {
    quotient, rest := v / p, v % p;
  }

  /** Wrapping at 32 bits, or masking with 31 or 255, keeps the bits that are wanted. */
  lemma ModKeepsBits(v: nat, n: nat, m: nat)
    requires n <= m
    ensures BitsOf(v % PowerOfTwo(m), n) == BitsOf(v, n)
  {
    var quotient, rest := Divide(v, PowerOfTwo(m));
    AddMultiple(rest, quotient, n, m);
  }

  /** `v >>> k`. */
  function ShiftRight(v: nat, k: nat): nat
    decreases k
  {
    if k == 0 then v else ShiftRight(v / 2, k - 1)
  }

  /** `v << k`, before it wraps. */
  function ShiftLeft(v: nat, k: nat): nat {
    if k == 0 then v else 2 * ShiftLeft(v, k - 1)
  }

  lemma {:induction false} ShiftLeftIsProduct(v: nat, k: nat)
    ensures ShiftLeft(v, k) == v * PowerOfTwo(k)
  {
    if k > 0 {
      ShiftLeftIsProduct(v, k - 1);
    }
  }

  /** A right shift by b exposes the bits above the lowest b. */
  lemma {:induction false} BitsSplit(v: nat, a: nat, b: nat)
    ensures BitsOf(v, a + b) == BitsOf(ShiftRight(v, b), a) + BitsOf(v, b)
    decreases b
  {
    if b == 0 {
      assert BitsOf(v, a) + [] == BitsOf(v, a);
    } else {
      BitsSplit(v / 2, a, b - 1);
      assert a + b - 1 == a + (b - 1);
    }
  }

  /** A left shift by k with `low` put into the free bits. */
  lemma {:induction false} BitsShift(v: nat, n: nat, low: nat, k: nat)
    requires low < PowerOfTwo(k)
    ensures BitsOf(v * PowerOfTwo(k) + low, n + k) == BitsOf(v, n) + BitsOf(low, k)
    decreases k
  {
    if k == 0 {
      assert BitsOf(v, n) + [] == BitsOf(v, n);
    } else {
      var t := v * PowerOfTwo(k - 1);
      assert v * PowerOfTwo(k) == 2 * t;
      BitsShift(v, n, low / 2, k - 1);
      assert (2 * t + low) / 2 == t + low / 2 && (2 * t + low) % 2 == low % 2;
      assert BitsOf(v, n) + BitsOf(low, k) == (BitsOf(v, n) + BitsOf(low / 2, k - 1)) + [low % 2 == 1];
    }
  }

  lemma {:induction false} BitsOfZero(k: nat)
    ensures BitsOf(0, k) == Zeros(k)
  {
    if k > 0 {
      BitsOfZero(k - 1);
    }
  }

  // ----- what RFC 4648 says -----

  /** Groups of five bits; the last one is filled up with zero bits on the right. */
  function Quintets(bits: seq<bool>): seq<Quintet> {
    if bits == [] then []
    else if |bits| < 5 then [Five(bits + Zeros(5 - |bits|))]
    else [Five(bits[..5])] + Quintets(bits[5..])
  }

  function Five(bits: seq<bool>): Quintet
    requires |bits| == 5
  {
    ValueBound(bits);
    PowersUsed();
    ValueOf(bits)
  }

  function Eight(bits: seq<bool>): Byte
    requires |bits| == 8
  {
    ValueBound(bits);
    PowersUsed();
    ValueOf(bits)
  }

  /** Groups of eight bits; fewer at the end are dropped. */
  function Octets(bits: seq<bool>): seq<Byte> {
    if |bits| < 8 then [] else [Eight(bits[..8])] + Octets(bits[8..])
  }

  /** A..Z, then 2..7. */
  function Letter(q: Quintet): Unit {
    if q < 26 then 0x41 + q else 0x32 + q - 26
  }

  /** `BASE32_ALPHABET.indexOf`, with `None` for -1. */
  function IndexOf(u: Unit): Option<Quintet> {
    if 0x41 <= u <= 0x5A then Some(u - 0x41) else if 0x32 <= u <= 0x37 then Some(u - 0x32 + 26) else None
  }

  function Letters(quintets: seq<Quintet>): Text {
    if quintets == [] then [] else [Letter(quintets[0])] + Letters(quintets[1..])
  }

  function Indexes(text: Text): Option<seq<Quintet>> {
    if text == [] then Some([])
    else
      match (IndexOf(text[0]), Indexes(text[1..]))
      case (Some(q), Some(rest)) => Some([q] + rest)
      case _ => None
  }

  function RfcEncode(bytes: seq<Byte>): Text {
    Letters(Quintets(BytesBits(bytes)))
  }

  datatype SecretError = InvalidSecret

  function RfcDecode(letters: Text): Result<seq<Byte>, SecretError> {
    match Indexes(letters)
    case None => Err(InvalidSecret)
    case Some(quintets) => Ok(Octets(QuintetsBits(quintets)))
  }

  // ----- the encoder -----

  lemma QuintetInFront(q: Quintet, tail: seq<bool>)
    ensures Quintets(BitsOf(q, 5) + tail) == [q] + Quintets(tail)
  {
    PowersUsed();
    ValueOfBits(q, 5);
    var all := BitsOf(q, 5) + tail;
    assert all[..5] == BitsOf(q, 5) && all[5..] == tail;
  }

  lemma OctetInFront(b: Byte, tail: seq<bool>)
    ensures Octets(BitsOf(b, 8) + tail) == [b] + Octets(tail)
  {
    PowersUsed();
    ValueOfBits(b, 8);
    var all := BitsOf(b, 8) + tail;
    assert all[..8] == BitsOf(b, 8) && all[8..] == tail;
  }

  lemma Regroup(a: seq<bool>, b: seq<bool>, c: seq<bool>)
    ensures a + b + c == a + (b + c)
  {
  }

  /** The quintets still to come when `bits` bits are left in the accumulator. */
  function Pending(value: nat, bits: nat, rest: seq<bool>): seq<Quintet> {
    Quintets(BitsOf(value, bits) + rest)
  }

  /** Taking five bits off the front of the accumulator. */
  lemma TakeQuintet(value: nat, bits: nat, rest: seq<bool>)
    requires bits >= 5
    ensures var q := ShiftRight(value, bits - 5) % 32;
            Pending(value, bits, rest) == [q] + Pending(value, bits - 5, rest)
  {
    var high := ShiftRight(value, bits - 5);
    BitsSplit(value, 5, bits - 5);
    PowersUsed();
    ModKeepsBits(high, 5, 5);
    Regroup(BitsOf(high % 32, 5), BitsOf(value, bits - 5), rest);
    QuintetInFront(high % 32, BitsOf(value, bits - 5) + rest);
  }

  /** `value = (value << 8) | byte`, on 32 bits. */
  lemma PutByte(value: nat, bits: nat, byte: Byte)
    requires bits <= 24
    ensures BitsOf((value * 256 + byte) % WORD, bits + 8) == BitsOf(value, bits) + BitsOf(byte, 8)
  {
    PowersUsed();
    BitsShift(value, bits, byte, 8);
    ModKeepsBits(value * 256 + byte, bits + 8, 32);
  }

  /** `(value << (5 - bits)) & 31`, on 32 bits. */
  lemma LastQuintet(value: nat, bits: nat)
    requires 0 < bits < 5
    ensures Quintets(BitsOf(value, bits)) == [ShiftLeft(value, 5 - bits) % WORD % 32]
  {
    var shifted := ShiftLeft(value, 5 - bits);
    ShiftLeftIsProduct(value, 5 - bits);
    var q := shifted % WORD % 32;
    PowersUsed();
    BitsShift(value, bits, 0, 5 - bits);
    assert value * PowerOfTwo(5 - bits) + 0 == shifted;
    BitsOfZero(5 - bits);
    ModKeepsBits(shifted % WORD, 5, 5);
    ModKeepsBits(shifted, 5, 32);
    ValueOfBits(q, 5);
  }

  lemma {:induction false} LettersAppend(a: seq<Quintet>, b: seq<Quintet>)
    ensures Letters(a + b) == Letters(a) + Letters(b)
  {
    if a == [] {
      assert a + b == b && Letters(a) + Letters(b) == Letters(b);
    } else {
      LettersAppend(a[1..], b);
      assert (a + b)[0] == a[0] && (a + b)[1..] == a[1..] + b;
      var first, more, last := [Letter(a[0])], Letters(a[1..]), Letters(b);
      assert first + (more + last) == first + more + last;
    }
  }

  lemma MoveQuintet(out: seq<Quintet>, q: Quintet, tail: seq<Quintet>)
    ensures out + ([q] + tail) == (out + [q]) + tail
    ensures Letters(out + [q]) == Letters(out) + [Letter(q)]
  {
    LettersAppend(out, [q]);
    assert [q][1..] == [];
  }

  /** The inner loop: emits quintets while five bits are there. */
  method DrainQuintets(value: nat, loaded: nat, ghost rest: seq<bool>) returns (letters: Text, bits: nat, ghost out: seq<Quintet>)
    requires loaded <= 12
    ensures bits < 5 && letters == Letters(out)
    ensures Pending(value, loaded, rest) == out + Pending(value, bits, rest)
  {
    letters, bits, out := [], loaded, [];
    ghost var all := Pending(value, loaded, rest);
    assert [] + all == all;
    while bits >= 5
      invariant letters == Letters(out)
      invariant all == out + Pending(value, bits, rest)
    {
      TakeQuintet(value, bits, rest);
      var q: Quintet := ShiftRight(value, bits - 5) % 32;
      MoveQuintet(out, q, Pending(value, bits - 5, rest));
      letters := letters + [Letter(q)];
      out := out + [q];
      bits := bits - 5;
    }
  }

  lemma ByteIn(value: nat, bits: nat, bytes: seq<Byte>, next: nat)
    requires bits < 5 && bytes != [] && next == (value * 256 + bytes[0]) % WORD
    ensures Pending(value, bits, BytesBits(bytes)) == Pending(next, bits + 8, BytesBits(bytes[1..]))
  {
    PutByte(value, bits, bytes[0]);
    Regroup(BitsOf(value, bits), BitsOf(bytes[0], 8), BytesBits(bytes[1..]));
  }

  lemma MoveQuintets(emitted: seq<Quintet>, out: seq<Quintet>, tail: seq<Quintet>)
    ensures emitted + (out + tail) == (emitted + out) + tail
    ensures Letters(emitted + out) == Letters(emitted) + Letters(out)
  {
    LettersAppend(emitted, out);
  }

  lemma StartEncoding(bytes: seq<Byte>)
    ensures Pending(0, 0, BytesBits(bytes)) == Quintets(BytesBits(bytes))
  {
    assert BitsOf(0, 0) + BytesBits(bytes) == BytesBits(bytes);
  }

  lemma FinishEncoding(value: nat, bits: nat)
    requires bits < 5
    ensures Pending(value, bits, []) == if bits == 0 then [] else [ShiftLeft(value, 5 - bits) % WORD % 32]
  {
    assert BitsOf(value, bits) + [] == BitsOf(value, bits);
    if bits > 0 {
      LastQuintet(value, bits);
    }
  }

  /** One turn of the outer loop. */
  method EncodeByte(value: nat, bits: nat, byte: Byte, ghost bytes: seq<Byte>)
    returns (next: nat, left: nat, letters: Text, ghost out: seq<Quintet>)
    requires bits < 5 && bytes != [] && byte == bytes[0]
    ensures left < 5 && letters == Letters(out)
    ensures Pending(value, bits, BytesBits(bytes)) == out + Pending(next, left, BytesBits(bytes[1..]))
  {
    next := (value * 256 + byte) % WORD;
    ByteIn(value, bits, bytes, next);
    letters, left, out := DrainQuintets(next, bits + 8, BytesBits(bytes[1..]));
  }

  method Base32Encode(bytes: seq<Byte>) returns (result: Text)
    ensures result == RfcEncode(bytes)
  {
    var bits: nat := 0;
    var value: nat := 0;
    result := [];
    ghost var emitted: seq<Quintet> := [];
    ghost var all := Quintets(BytesBits(bytes));
    StartEncoding(bytes);
    assert bytes[0..] == bytes && [] + all == all;
    for i := 0 to |bytes|
      invariant bits < 5 && result == Letters(emitted)
      invariant all == emitted + Pending(value, bits, BytesBits(bytes[i..]))
    {
      assert bytes[i..][1..] == bytes[i + 1..];
      var next, left, letters;
      ghost var out;
      next, left, letters, out := EncodeByte(value, bits, bytes[i], bytes[i..]);
      MoveQuintets(emitted, out, Pending(next, left, BytesBits(bytes[i + 1..])));
      result := result + letters;
      emitted := emitted + out;
      value, bits := next, left;
    }
    assert bytes[|bytes|..] == [];
    FinishEncoding(value, bits);
    if bits > 0 {
      var q: Quintet := ShiftLeft(value, 5 - bits) % WORD % 32;
      MoveQuintet(emitted, q, []);
      assert all == emitted + [q];
      result := result + [Letter(q)];
    } else {
      assert emitted + [] == emitted;
    }
  }

  // ----- the decoder -----

  lemma PutQuintet(value: nat, bits: nat, q: Quintet)
    requires bits <= 27
    ensures BitsOf((value * 32 + q) % WORD, bits + 5) == BitsOf(value, bits) + BitsOf(q, 5)
  {
    PowersUsed();
    BitsShift(value, bits, q, 5);
    ModKeepsBits(value * 32 + q, bits + 5, 32);
  }

  lemma TakeOctet(value: nat, bits: nat, rest: seq<bool>)
    requires bits >= 8
    ensures var b := ShiftRight(value, bits - 8) % 256;
            Octets(BitsOf(value, bits) + rest) == [b] + Octets(BitsOf(value, bits - 8) + rest)
  {
    var high := ShiftRight(value, bits - 8);
    BitsSplit(value, 8, bits - 8);
    PowersUsed();
    ModKeepsBits(high, 8, 8);
    Regroup(BitsOf(high % 256, 8), BitsOf(value, bits - 8), rest);
    OctetInFront(high % 256, BitsOf(value, bits - 8) + rest);
  }

  /** Upper case, no trailing `=`, no white space. */
  function Upper(text: Text): Text {
    if text == [] then [] else [if 0x61 <= text[0] <= 0x7A then text[0] - 0x20 else text[0]] + Upper(text[1..])
  }

  function StripPadding(text: Text): Text {
    if text != [] && text[|text| - 1] == 0x3D then StripPadding(text[..|text| - 1]) else text
  }

  function DropWhite(text: Text): Text {
    if text == [] then [] else (if PageText.IsSpace(text[0]) then [] else [text[0]]) + DropWhite(text[1..])
  }

  function NormalizeSecret(text: Text): Text {
    DropWhite(StripPadding(Upper(text)))
  }

  /** The part of the answer that does not depend on where the decoder stands. */
  function Remaining(value: nat, bits: nat, letters: Text): Result<seq<Byte>, SecretError> {
    match Indexes(letters)
    case None => Err(InvalidSecret)
    case Some(quintets) => Ok(Octets(BitsOf(value, bits) + QuintetsBits(quintets)))
  }

  function Prepended(output: seq<Byte>, r: Result<seq<Byte>, SecretError>): Result<seq<Byte>, SecretError> {
    if r.Ok? then Ok(output + r.value) else r
  }

  /** One more quintet in the accumulator. */
  lemma QuintetIn(value: nat, bits: nat, q: Quintet, rest: seq<Quintet>)
    requires bits < 8
    ensures BitsOf(value, bits) + QuintetsBits([q] + rest) == BitsOf((value * 32 + q) % WORD, bits + 5) + QuintetsBits(rest)
  {
    PutQuintet(value, bits, q);
    assert ([q] + rest)[1..] == rest;
    Regroup(BitsOf(value, bits), BitsOf(q, 5), QuintetsBits(rest));
  }

  lemma DecodeStep(value: nat, bits: nat, letters: Text, q: Quintet)
    requires bits < 8 && letters != [] && IndexOf(letters[0]) == Some(q)
    ensures Remaining(value, bits, letters) == Remaining((value * 32 + q) % WORD, bits + 5, letters[1..])
  {
    if Indexes(letters[1..]).Some? {
      QuintetIn(value, bits, q, Indexes(letters[1..]).value);
    }
  }

  lemma OctetOut(value: nat, bits: nat, letters: Text, output: seq<Byte>)
    requires bits >= 8
    ensures Prepended(output, Remaining(value, bits, letters)) ==
            Prepended(output + [ShiftRight(value, bits - 8) % 256], Remaining(value, bits - 8, letters))
  {
    if Indexes(letters).Some? {
      var rest := QuintetsBits(Indexes(letters).value);
      TakeOctet(value, bits, rest);
      var b := ShiftRight(value, bits - 8) % 256;
      assert output + ([b] + Octets(BitsOf(value, bits - 8) + rest)) == output + [b] + Octets(BitsOf(value, bits - 8) + rest);
    }
  }

  lemma StartDecoding(letters: Text)
    ensures RfcDecode(letters) == Prepended([], Remaining(0, 0, letters))
  {
    if Indexes(letters).Some? {
      var bits := QuintetsBits(Indexes(letters).value);
      assert BitsOf(0, 0) + bits == bits && [] + Octets(bits) == Octets(bits);
    }
  }

  lemma PrependNothing(r: Result<seq<Byte>, SecretError>)
    ensures Prepended([], r) == r
  {
    if r.Ok? {
      assert [] + r.value == r.value;
    }
  }

  method DecodeQuintet(accumulator: nat, bits: nat, q: Quintet, ghost letters: Text) returns (next: nat, left: nat, out: seq<Byte>)
    requires bits < 8 && letters != [] && IndexOf(letters[0]) == Some(q)
    ensures left < 8 && Remaining(accumulator, bits, letters) == Prepended(out, Remaining(next, left, letters[1..]))
  {
    DecodeStep(accumulator, bits, letters, q);
    next := (accumulator * 32 + q) % WORD;
    left := bits + 5;
    out := [];
    PrependNothing(Remaining(next, left, letters[1..]));
    if left >= 8 {
      OctetOut(next, left, letters[1..], []);
      out := [ShiftRight(next, left - 8) % 256];
      assert [] + out == out;
      left := left - 8;
    }
  }

  lemma PrependTwice(a: seq<Byte>, b: seq<Byte>, r: Result<seq<Byte>, SecretError>)
    ensures Prepended(a, Prepended(b, r)) == Prepended(a + b, r)
  {
    if r.Ok? {
      assert a + (b + r.value) == a + b + r.value;
    }
  }

  method Base32Decode(text: Text) returns (r: Result<seq<Byte>, SecretError>)
    ensures r == RfcDecode(NormalizeSecret(text))
  {
    var letters := NormalizeSecret(text);
    var bits: nat := 0;
    var accumulator: nat := 0;
    var output: seq<Byte> := [];
    StartDecoding(letters);
    assert letters[0..] == letters;
    for i := 0 to |letters|
      invariant bits < 8
      invariant RfcDecode(letters) == Prepended(output, Remaining(accumulator, bits, letters[i..]))
    {
      assert letters[i..][1..] == letters[i + 1..];
      var index := IndexOf(letters[i]);
      if index.None? {
        return Err(InvalidSecret);
      }
      var next, left, out := DecodeQuintet(accumulator, bits, index.value, letters[i..]);
      PrependTwice(output, out, Remaining(next, left, letters[i + 1..]));
      accumulator, bits := next, left;
      output := output + out;
    }
    assert letters[|letters|..] == [];
    assert BitsOf(accumulator, bits) + [] == BitsOf(accumulator, bits) && output + [] == output;
    return Ok(output);
  }

  // ----- decoding an encoding -----

  lemma FirstQuintet(bits: seq<bool>, front: seq<bool>, tail: seq<bool>)
    requires |front| == 5 && bits == front + tail
    ensures Quintets(bits) == [Five(front)] + Quintets(tail)
  {
    BitsOfValue(front);
    QuintetInFront(Five(front), tail);
  }

  lemma QuintetOfFive(front: seq<bool>, rest: seq<Quintet>)
    requires |front| == 5
    ensures QuintetsBits([Five(front)] + rest) == front + QuintetsBits(rest)
  {
    BitsOfValue(front);
    assert ([Five(front)] + rest)[1..] == rest;
  }

  lemma OneQuintet(full: seq<bool>)
    requires |full| == 5
    ensures QuintetsBits([Five(full)]) == full
  {
    QuintetOfFive(full, []);
    assert [Five(full)] + [] == [Five(full)] && full + [] == full;
  }

  lemma ShortQuintet(bits: seq<bool>, pad: nat)
    requires 0 < |bits| < 5 && pad == 5 - |bits|
    ensures QuintetsBits(Quintets(bits)) == bits + Zeros(pad)
  {
    OneQuintet(bits + Zeros(pad));
  }

  lemma {:induction false} QuintetsKeepBits(bits: seq<bool>) returns (pad: nat)
    ensures pad < 5 && QuintetsBits(Quintets(bits)) == bits + Zeros(pad)
  {
    if bits == [] {
      pad := 0;
    } else if |bits| < 5 {
      pad := 5 - |bits|;
      ShortQuintet(bits, pad);
    } else {
      var front, tail := bits[..5], bits[5..];
      pad := QuintetsKeepBits(tail);
      FirstQuintet(bits, front, tail);
      QuintetOfFive(front, Quintets(tail));
      Regroup(front, tail, Zeros(pad));
    }
  }

  lemma {:induction false} OctetsOfBytes(bytes: seq<Byte>, tail: seq<bool>)
    requires |tail| < 8
    ensures Octets(BytesBits(bytes) + tail) == bytes
  {
    if bytes == [] {
      assert BytesBits(bytes) + tail == tail;
    } else {
      OctetsOfBytes(bytes[1..], tail);
      Regroup(BitsOf(bytes[0], 8), BytesBits(bytes[1..]), tail);
      OctetInFront(bytes[0], BytesBits(bytes[1..]) + tail);
      assert bytes == [bytes[0]] + bytes[1..];
    }
  }

  lemma {:induction false} IndexesOfLetters(quintets: seq<Quintet>)
    ensures Indexes(Letters(quintets)) == Some(quintets)
  {
    if quintets != [] {
      IndexesOfLetters(quintets[1..]);
      assert Letters(quintets)[1..] == Letters(quintets[1..]);
      assert quintets == [quintets[0]] + quintets[1..];
    }
  }

  /** Upper-case letters and the digits of the alphabet pass normalisation unchanged. */
  lemma {:induction false} LettersAreNormal(quintets: seq<Quintet>)
    ensures var t := Letters(quintets); Upper(t) == t && StripPadding(t) == t && DropWhite(t) == t
    ensures quintets != [] ==> Letters(quintets)[|Letters(quintets)| - 1] != 0x3D
  {
    if quintets != [] {
      LettersAreNormal(quintets[1..]);
      assert Letters(quintets)[1..] == Letters(quintets[1..]);
    }
  }

  /** Decoding an encoding gives the bytes back, for byte strings of every length. */
  lemma RoundTrip(bytes: seq<Byte>)
    ensures RfcDecode(NormalizeSecret(RfcEncode(bytes))) == Ok(bytes)
  {
    var quintets := Quintets(BytesBits(bytes));
    LettersAreNormal(quintets);
    IndexesOfLetters(quintets);
    var pad := QuintetsKeepBits(BytesBits(bytes));
    OctetsOfBytes(bytes, Zeros(pad));
  }

  // ----- how a secret may be spelled -----

  /** The letter u as some user types it: letters in either case. */
  predicate Typed(u: Unit, letter: Unit) {
    u == letter || (0x41 <= letter <= 0x5A && u == letter + 0x20)
  }

  predicate TypedAs(text: Text, letters: Text) {
    |text| == |letters| && forall i :: 0 <= i < |text| ==> Typed(text[i], letters[i])
  }

  function EqualsSigns(n: nat): Text {
    if n == 0 then [] else EqualsSigns(n - 1) + [0x3D]
  }

  lemma {:induction false} UpperEach(text: Text)
    ensures |Upper(text)| == |text| && forall i :: 0 <= i < |text| ==> Upper(text)[i] == if 0x61 <= text[i] <= 0x7A then text[i] - 0x20 else text[i]
  {
    if text != [] {
      UpperEach(text[1..]);
    }
  }

  lemma UpperConcat(a: Text, b: Text)
    ensures Upper(a + b) == Upper(a) + Upper(b)
  {
    UpperEach(a);
    UpperEach(b);
    UpperEach(a + b);
  }

  lemma {:induction false} UpperPads(n: nat)
    ensures Upper(EqualsSigns(n)) == EqualsSigns(n)
  {
    if n > 0 {
      UpperPads(n - 1);
      UpperConcat(EqualsSigns(n - 1), [0x3D]);
      assert Upper([0x3D]) == [0x3D] by { assert [0x3D][1..] == []; }
    }
  }

  lemma {:induction false} StripsPads(text: Text, n: nat)
    requires text == [] || text[|text| - 1] != 0x3D
    ensures StripPadding(text + EqualsSigns(n)) == text
  {
    if n == 0 {
      assert text + [] == text;
    } else {
      var all := text + EqualsSigns(n);
      assert all[..|all| - 1] == text + EqualsSigns(n - 1);
      StripsPads(text, n - 1);
    }
  }

  lemma {:induction false} UpperOfTyped(text: Text, quintets: seq<Quintet>)
    requires TypedAs(text, Letters(quintets))
    ensures Upper(text) == Letters(quintets)
  {
    if quintets != [] {
      assert Letters(quintets)[1..] == Letters(quintets[1..]);
      assert forall i :: 0 <= i < |text| - 1 ==> text[1..][i] == text[i + 1] && Letters(quintets)[i + 1] == Letters(quintets[1..])[i];
      assert Typed(text[0], Letters(quintets)[0]);
      UpperOfTyped(text[1..], quintets[1..]);
    }
  }

  /** An encoding in any mixture of cases and with any padding decodes to the bytes as well. */
  lemma AnyCaseAndPaddingDecodes(bytes: seq<Byte>, text: Text, pads: nat)
    requires TypedAs(text, RfcEncode(bytes))
    ensures RfcDecode(NormalizeSecret(text + EqualsSigns(pads))) == Ok(bytes)
  {
    var quintets := Quintets(BytesBits(bytes));
    UpperOfTyped(text, quintets);
    UpperConcat(text, EqualsSigns(pads));
    UpperPads(pads);
    LettersAreNormal(quintets);
    StripsPads(Letters(quintets), pads);
    RoundTrip(bytes);
  }

  lemma DropWhiteFront(u: Unit, text: Text)
    ensures DropWhite([u] + text) == (if PageText.IsSpace(u) then [] else [u]) + DropWhite(text)
  {
    assert ([u] + text)[1..] == text;
  }

  lemma Associates(a: Text, b: Text, c: Text)
    ensures a + (b + c) == a + b + c
  {
  }

  lemma {:induction false} DropWhiteConcat(a: Text, b: Text)
    ensures DropWhite(a + b) == DropWhite(a) + DropWhite(b)
  {
    if a == [] {
      assert a + b == b;
    } else {
      var first, rest := [a[0]], a[1..];
      DropWhiteConcat(rest, b);
      assert a == first + rest;
      Associates(first, rest, b);
      DropWhiteFront(a[0], rest + b);
      DropWhiteFront(a[0], rest);
      Associates(if PageText.IsSpace(a[0]) then [] else first, DropWhite(rest), DropWhite(b));
    }
  }

  /** White space before the last letter does not matter. */
  lemma WhiteSpaceIsIgnored(a: Text, space: Unit, b: Text)
    requires PageText.IsSpace(space) && b != [] && b[|b| - 1] != 0x3D
    ensures NormalizeSecret(a + [space] + b) == NormalizeSecret(a + b)
  {
    var with, without := a + [space] + b, a + b;
    UpperEach(with);
    UpperEach(without);
    assert StripPadding(Upper(with)) == Upper(with) && StripPadding(Upper(without)) == Upper(without);
    UpperConcat(a + [space], b);
    UpperConcat(a, [space]);
    UpperConcat(a, b);
    DropWhiteConcat(Upper(a) + Upper([space]), Upper(b));
    DropWhiteConcat(Upper(a), Upper([space]));
    DropWhiteConcat(Upper(a), Upper(b));
    assert Upper([space]) == [space] && DropWhite([space]) == [] by { assert [space][1..] == []; }
    assert DropWhite(Upper(a)) + [] == DropWhite(Upper(a));
  }

  /** Decoding fails exactly for a unit that is no capital letter and no digit from 2 to 7. */
  lemma {:induction false} DecodesIff(letters: Text)
    ensures RfcDecode(letters).Ok? <==> forall i :: 0 <= i < |letters| ==> 0x41 <= letters[i] <= 0x5A || 0x32 <= letters[i] <= 0x37
  {
    if letters != [] {
      DecodesIff(letters[1..]);
      assert forall i :: 0 < i < |letters| ==> letters[i] == letters[1..][i - 1];
      assert forall i :: 0 <= i < |letters| - 1 ==> letters[1..][i] == letters[i + 1];
    }
  }

  // ----- a test vector of section 10 of RFC 4648, without padding -----

  lemma FiveBits(bits: seq<bool>, a: bool, b: bool, c: bool, d: bool, e: bool)
    requires bits == [a, b, c, d, e]
    ensures Five(bits) == (if a then 16 else 0) + (if b then 8 else 0) + (if c then 4 else 0) + (if d then 2 else 0) + (if e then 1 else 0)
  {
    var b4, b3, b2, b1 := bits[..4], bits[..3], bits[..2], bits[..1];
    assert b4[..3] == b3 && b3[..2] == b2 && b2[..1] == b1 && b1[..0] == [];
    assert ValueOf(b1) == if a then 1 else 0;
    assert ValueOf(b2) == 2 * ValueOf(b1) + if b then 1 else 0;
    assert ValueOf(b3) == 2 * ValueOf(b2) + if c then 1 else 0;
    assert ValueOf(b4) == 2 * ValueOf(b3) + if d then 1 else 0;
  }

  /** "f" is "MY". */
  lemma RfcVector()
    ensures RfcEncode([0x66]) == [0x4D, 0x59]
  {
    var bits := [false, true, true, false, false, true, true, false];
    assert BytesBits([0x66]) == bits;
    FiveBits(bits[..5], false, true, true, false, false);
    FiveBits(bits[5..] + Zeros(2), true, true, false, false, false);
    assert Quintets(bits[5..]) == [24];
    assert Quintets(bits) == [12] + [24];
  }
}
