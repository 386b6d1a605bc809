/**
 * Second-factor authentication: truncation and verification of TOTP codes, and the races between concurrent
 * requests, each of which consumes its challenge and its counter or recovery code in one guarded transaction.
 */
module Mfa {
  import opened Wrappers
  import opened Powers
  import opened Base32
  import opened Utf16

  // ----- the code at a counter -----

  /** What HMAC-SHA-1 gives. */
  type Digest = d: seq<Byte> | |d| == 20 witness [0, 0, 0, 0, 0, 0, 0, 0, 0, 0, 0, 0, 0, 0, 0, 0, 0, 0, 0, 0]

  /** Section 5.3 of RFC 4226: four bytes at the offset in the last nibble, without the top bit. */
  function Truncated(digest: Digest): nat {
    var offset: nat := digest[19] % 16;
    var b0: nat, b1: nat, b2: nat, b3: nat := digest[offset], digest[offset + 1], digest[offset + 2], digest[offset + 3];
    b0 % 128 * 0x100_0000 + b1 * 0x1_0000 + b2 * 0x100 + b3
  }

  function CodeOf(digest: Digest): nat {
    Truncated(digest) % 1_000_000
  }

  lemma BytePowers()
    ensures PowerOfTwo(7) == 0x80 && PowerOfTwo(8) == 0x100 && PowerOfTwo(16) == 0x1_0000 && PowerOfTwo(24) == 0x100_0000
  {
    assert PowerOfTwo(4) == 16 && PowerOfTwo(7) == 128 && PowerOfTwo(8) == 256;
    assert PowerOfTwo(12) == 4096 && PowerOfTwo(16) == 65536;
    assert PowerOfTwo(20) == 1048576 && PowerOfTwo(24) == 16777216;
  }

  lemma {:induction false} ValueAppend(a: seq<bool>, b: seq<bool>)
    ensures ValueOf(a + b) == ValueOf(a) * PowerOfTwo(|b|) + ValueOf(b)
    decreases |b|
  {
    if b == [] {
      assert a + b == a;
    } else {
      var front := b[..|b| - 1];
      ValueAppend(a, front);
      assert (a + b)[..|a + b| - 1] == a + front;
      assert PowerOfTwo(|b|) == 2 * PowerOfTwo(|front|);
      assert ValueOf(a) * (2 * PowerOfTwo(|front|)) == 2 * (ValueOf(a) * PowerOfTwo(|front|));
    }
  }

  lemma ByteValue(b: Byte) returns (bits: seq<bool>)
    ensures bits == BitsOf(b, 8) && ValueOf(bits) == b && |bits| == 8
  {
    bits := BitsOf(b, 8);
    BytePowers();
    ValueOfBits(b, 8);
  }

  /** A byte without its top bit. */
  lemma TopBitOff(bits: seq<bool>)
    requires |bits| == 8
    ensures ValueOf(bits[1..]) == ValueOf(bits) % 128
  {
    var top, rest := bits[..1], bits[1..];
    BytePowers();
    assert bits == top + rest;
    ValueAppend(top, rest);
    ValueBound(rest);
  }

  lemma JoinedValue(a: seq<bool>, b: seq<bool>, c: seq<bool>, d: seq<bool>)
    requires |b| == 8 && |c| == 8 && |d| == 8
    ensures ValueOf(a + (b + (c + d))) == ValueOf(a) * 0x100_0000 + ValueOf(b) * 0x1_0000 + ValueOf(c) * 0x100 + ValueOf(d)
  {
    BytePowers();
    ValueAppend(c, d);
    ValueAppend(b, c + d);
    ValueAppend(a, b + (c + d));
  }

  lemma FirstByte(bytes: seq<Byte>) returns (bits: seq<bool>)
    requires bytes != []
    ensures BytesBits(bytes) == bits + BytesBits(bytes[1..]) && |bits| == 8 && ValueOf(bits) == bytes[0]
  {
    bits := ByteValue(bytes[0]);
  }

  lemma FourBytes(bytes: seq<Byte>) returns (a: seq<bool>, b: seq<bool>, c: seq<bool>, d: seq<bool>)
    requires |bytes| == 4
    ensures BytesBits(bytes) == a + (b + (c + d)) && |a| == |b| == |c| == |d| == 8
    ensures ValueOf(a) == bytes[0] && ValueOf(b) == bytes[1] && ValueOf(c) == bytes[2] && ValueOf(d) == bytes[3]
  {
    a := FirstByte(bytes);
    b := FirstByte(bytes[1..]);
    c := FirstByte(bytes[1..][1..]);
    d := FirstByte(bytes[1..][1..][1..]);
    assert bytes[1..][1..][1..][1..] == [] && d + [] == d;
  }

  lemma DropFirst(a: seq<bool>, rest: seq<bool>)
    requires a != []
    ensures (a + rest)[1..] == a[1..] + rest
  {
  }

  lemma WithoutTopBit(a: seq<bool>, b: seq<bool>, c: seq<bool>, d: seq<bool>)
    requires |a| == |b| == |c| == |d| == 8
    ensures ValueOf((a + (b + (c + d)))[1..]) == ValueOf(a) % 128 * 0x100_0000 + ValueOf(b) * 0x1_0000 + ValueOf(c) * 0x100 + ValueOf(d)
  {
    DropFirst(a, b + (c + d));
    TopBitOff(a);
    JoinedValue(a[1..], b, c, d);
  }

  lemma FourBytesValue(bytes: seq<Byte>)
    requires |bytes| == 4
    ensures ValueOf(BytesBits(bytes)[1..]) ==
            (bytes[0] as nat) % 128 * 0x100_0000 + (bytes[1] as nat) * 0x1_0000 + (bytes[2] as nat) * 0x100 + bytes[3]
  {
    var a, b, c, d := FourBytes(bytes);
    WithoutTopBit(a, b, c, d);
  }

  lemma CodeIsRemainder(digest: Digest)
    ensures (Truncated(digest) - CodeOf(digest)) % 1_000_000 == 0 && CodeOf(digest) < 1_000_000
  {
  }

  /**
   * The number is what the four bytes at the offset spell in bits, most significant first, without the
   * top bit; the code is what that leaves modulo a million.
   */
  lemma TruncationReadsFourBytes(digest: Digest)
    ensures var o: nat := digest[19] % 16; Truncated(digest) == ValueOf(BytesBits(digest[o..o + 4])[1..])
    ensures (Truncated(digest) - CodeOf(digest)) % 1_000_000 == 0 && CodeOf(digest) < 1_000_000
  {
    var o: nat := digest[19] % 16;
    FourBytesValue(digest[o..o + 4]);
    CodeIsRemainder(digest);
  }

  /** The example of section 5.4 of RFC 4226. */
  lemma RfcExample(digest: Digest)
    requires digest == [0x1f, 0x86, 0x98, 0x69, 0x0e, 0x02, 0xca, 0x16, 0x61, 0x85, 0x50, 0xef, 0x7f, 0x19, 0xda, 0x8e, 0x94, 0x5b, 0x55, 0x5a]
    ensures CodeOf(digest) == 872921
  {
  }

  datatype TotpError = CounterInvalid | SecretInvalid

  function TotpAtCounter(secret: Text, counter: int, hmac: (seq<Byte>, nat) -> Digest): Result<nat, TotpError> {
    if counter < 0 then Err(CounterInvalid)
    else
      match RfcDecode(NormalizeSecret(secret))
      case Err(_) => Err(SecretInvalid)
      case Ok(key) => Ok(CodeOf(hmac(key, counter)))
  }

  /** The stored secret is as good as the bytes it was made from, and a code is six digits of a 31-bit number. */
  lemma EncodedSecretWorks(key: seq<Byte>, counter: nat, hmac: (seq<Byte>, nat) -> Digest)
    ensures TotpAtCounter(RfcEncode(key), counter, hmac) == Ok(CodeOf(hmac(key, counter)))
    ensures Truncated(hmac(key, counter)) < 0x8000_0000 && CodeOf(hmac(key, counter)) < 1_000_000
  {
    RoundTrip(key);
  }

  /** A negative counter is refused first; otherwise a secret is invalid exactly if it has a foreign letter. */
  lemma TotpErrors(secret: Text, counter: int, hmac: (seq<Byte>, nat) -> Digest)
    ensures TotpAtCounter(secret, counter, hmac) == Err(CounterInvalid) <==> counter < 0
    ensures TotpAtCounter(secret, counter, hmac) == Err(SecretInvalid) <==> counter >= 0 && RfcDecode(NormalizeSecret(secret)).Err?
  {
  }

  // ----- verifying -----

  const SKEW: int := 1

  function CounterAt(nowMs: int): int {
    nowMs / 1000 / 30
  }

  /** What `expected(counter)` codes a method has; a six-digit code is a number below a million. */
  predicate Fits(expected: int -> nat, otp: nat, nowMs: int, lastUsed: Option<int>, counter: int) {
    CounterAt(nowMs) - SKEW <= counter <= CounterAt(nowMs) + SKEW && counter >= 0 && counter > lastUsed.GetOr(-1) &&
    expected(counter) == otp
  }

  /** The code of a half minute fits from half a minute before it to half a minute after it. */
  lemma FitsWithinHalfAMinute(expected: int -> nat, otp: nat, nowMs: int, lastUsed: Option<int>, counter: int)
    ensures Fits(expected, otp, nowMs, lastUsed, counter) <==>
              counter * 30_000 - 30_000 <= nowMs < counter * 30_000 + 60_000 && counter >= 0 &&
              (lastUsed.Some? ==> lastUsed.value < counter) && expected(counter) == otp
  {
  }

  /** The lowest counter in the window that fits, if any. */
  method VerifyTotp(expected: int -> nat, otp: nat, nowMs: int, lastUsed: Option<int>) returns (r: Option<int>)
    ensures r.Some? ==> Fits(expected, otp, nowMs, lastUsed, r.value) &&
                        forall c :: Fits(expected, otp, nowMs, lastUsed, c) ==> r.value <= c
    ensures r.None? ==> forall c :: !Fits(expected, otp, nowMs, lastUsed, c)
  {
    var nowCounter := CounterAt(nowMs);
    var offset := -SKEW;
    while offset <= SKEW
      invariant -SKEW <= offset <= SKEW + 1
      invariant forall c :: c < nowCounter + offset ==> !Fits(expected, otp, nowMs, lastUsed, c)
    {
      var counter := nowCounter + offset;
      if counter >= 0 && counter > lastUsed.GetOr(-1) && expected(counter) == otp {
        return Some(counter);
      }
      offset := offset + 1;
    }
    return None;
  }

  // ----- concurrent authentication -----

  const MAX_ATTEMPTS: nat := 5

  datatype Challenge = Challenge(userId: string, consumed: bool, expiresAt: int, attempts: nat)

  datatype Method = Method(userId: string, active: bool, lastUsed: Option<int>)

  datatype RecoveryCode = RecoveryCode(userId: string, used: bool)

  datatype Proof = Totp(methodId: string, counter: int) | Recovery(code: string)

  /** A request between its verification and its transaction. */
  datatype Pending = Pending(challengeId: string, userId: string, proof: Option<Proof>, now: int)

  datatype Acceptance = Acceptance(challengeId: string, proof: Proof, now: int)

  datatype State = State(
    challenges: map<string, Challenge>,
    methods: map<string, Method>,
    codes: map<string, RecoveryCode>,
    pending: map<nat, Pending>,
    accepted: seq<Acceptance>)

  const Initial := State(map[], map[], map[], map[], [])

  /** What a user typed: a recovery code, or six digits, of which `counter` is what verifyTotp makes. */
  datatype Typed = SixDigits(methodId: string, counter: Option<int>) | Other(codeHash: string)

  datatype Step =
    | AddChallenge(id: string, userId: string, expiresAt: int)
    | AddMethod(methodId: string, owner: string)
    | DisableMethod(methodId: string)
    | AddCode(codeHash: string, owner: string)
    | Verify(request: nat, challengeId: string, typed: Typed, now: int)
    | Finish(request: nat)

  /** verifyTotp found a counter in the window that is newer than the one it read. */
  predicate Verified(m: Method, counter: int, now: int) {
    CounterAt(now) - SKEW <= counter <= CounterAt(now) + SKEW && counter >= 0 && counter > m.lastUsed.GetOr(-1)
  }

  predicate Usable(s: State, id: string, now: int) {
    id in s.challenges && !s.challenges[id].consumed && s.challenges[id].expiresAt > now && s.challenges[id].attempts < MAX_ATTEMPTS
  }

  function ProofOf(s: State, userId: string, typed: Typed, now: int): Option<Proof> {
    match typed
    case SixDigits(id, counter) =>
      if id in s.methods && s.methods[id].userId == userId && s.methods[id].active && counter.Some? &&
         Verified(s.methods[id], counter.value, now)
      then Some(Totp(id, counter.value)) else None
    case Other(hash) =>
      if hash in s.codes && s.codes[hash].userId == userId && !s.codes[hash].used then Some(Recovery(hash)) else None
  }

  function AfterVerify(s: State, request: nat, challengeId: string, typed: Typed, now: int): State {
    if !Usable(s, challengeId, now) || request in s.pending then s
    else
      var userId := s.challenges[challengeId].userId;
      s.(pending := s.pending[request := Pending(challengeId, userId, ProofOf(s, userId, typed, now), now)])
  }

  /** The guarded update of the counter or the code; `None` if it changes no row. */
  function Consumed(s: State, userId: string, proof: Proof): Option<State> {
    match proof
    case Totp(id, counter) =>
      if id in s.methods && s.methods[id].active && (s.methods[id].lastUsed.None? || s.methods[id].lastUsed.value < counter)
      then Some(s.(methods := s.methods[id := s.methods[id].(lastUsed := Some(counter))])) else None
    case Recovery(hash) =>
      if hash in s.codes && s.codes[hash].userId == userId && !s.codes[hash].used
      then Some(s.(codes := s.codes[hash := s.codes[hash].(used := true)])) else None
  }

  /** A failed verification counts an attempt; a proof consumes challenge and factor, or neither. */
  function AfterFinish(s: State, request: nat): State {
    if request !in s.pending then s
    else
      var p := s.pending[request];
      var done := s.(pending := s.pending - {request});
      if p.proof.None? then
        if p.challengeId in s.challenges && !s.challenges[p.challengeId].consumed && s.challenges[p.challengeId].attempts < MAX_ATTEMPTS
        then done.(challenges := s.challenges[p.challengeId := s.challenges[p.challengeId].(attempts := s.challenges[p.challengeId].attempts + 1)])
        else done
      else if !Usable(s, p.challengeId, p.now) || Consumed(s, p.userId, p.proof.value).None? then done
      else
        var t := Consumed(s, p.userId, p.proof.value).value;
        t.(pending := done.pending,
           challenges := s.challenges[p.challengeId := s.challenges[p.challengeId].(consumed := true)],
           accepted := s.accepted + [Acceptance(p.challengeId, p.proof.value, p.now)])
  }

  function Next(s: State, step: Step): State {
    match step
    case AddChallenge(id, userId, expiresAt) =>
      if id in s.challenges then s else s.(challenges := s.challenges[id := Challenge(userId, false, expiresAt, 0)])
    case AddMethod(id, owner) =>
      if id in s.methods then s else s.(methods := s.methods[id := Method(owner, true, None)])
    case DisableMethod(id) =>
      if id in s.methods then s.(methods := s.methods[id := s.methods[id].(active := false)]) else s
    case AddCode(hash, owner) =>
      if hash in s.codes then s else s.(codes := s.codes[hash := RecoveryCode(owner, false)])
    case Verify(request, challengeId, typed, now) => AfterVerify(s, request, challengeId, typed, now)
    case Finish(request) => AfterFinish(s, request)
  }

  function Execute(s: State, steps: seq<Step>): State
    decreases |steps|
  {
    if steps == [] then s else Execute(Next(s, steps[0]), steps[1..])
  }

  // ----- one request on its own -----

  /** What entitles a request: a code of the challenge's user that is in time and not used up. */
  predicate Entitled(s: State, userId: string, typed: Typed, now: int) {
    match typed
    case SixDigits(id, counter) =>
      id in s.methods && s.methods[id].userId == userId && s.methods[id].active && counter.Some? && counter.value >= 0 &&
      counter.value * 30_000 - 30_000 <= now < counter.value * 30_000 + 60_000 &&
      (s.methods[id].lastUsed.Some? ==> s.methods[id].lastUsed.value < counter.value)
    case Other(hash) => hash in s.codes && s.codes[hash].userId == userId && !s.codes[hash].used
  }

  /**
   * A request that nobody interrupts authenticates if and only if its challenge is open, in time and below
   * five attempts and its code entitles it; it then uses up both.  Otherwise an open challenge counts an
   * attempt, and everything else stays as it is.
   */
  lemma AuthenticatesIff(s: State, request: nat, id: string, typed: Typed, now: int)
    requires request !in s.pending
    ensures var t := Next(Next(s, Verify(request, id, typed, now)), Finish(request));
            var open := id in s.challenges && !s.challenges[id].consumed && now < s.challenges[id].expiresAt && s.challenges[id].attempts < 5;
            if !open then t == s
            else if !Entitled(s, s.challenges[id].userId, typed, now) then
              t == s.(challenges := s.challenges[id := s.challenges[id].(attempts := s.challenges[id].attempts + 1)])
            else
              |t.accepted| == |s.accepted| + 1 && t.challenges == s.challenges[id := s.challenges[id].(consumed := true)] &&
              match typed
              case SixDigits(m, counter) => t.methods == s.methods[m := s.methods[m].(lastUsed := counter)] && t.codes == s.codes
              case Other(hash) => t.codes == s.codes[hash := s.codes[hash].(used := true)] && t.methods == s.methods
  {
    var read := Next(s, Verify(request, id, typed, now));
    if read != s {
      assert read.pending - {request} == s.pending;
    }
  }

  /**
   * However long a request waited, its transaction looks again: it authenticates if and only if the challenge
   * is still open and the factor is still active, the user's and not used up; a wrong code counts on an open
   * challenge.
   */
  lemma FinishLooksAgain(s: State, request: nat)
    requires request in s.pending
    ensures var p, t := s.pending[request], Next(s, Finish(request));
            var id := p.challengeId;
            var open := id in s.challenges && !s.challenges[id].consumed && s.challenges[id].attempts < 5;
            t.pending == s.pending - {request} &&
            if p.proof.None? then
              t.accepted == s.accepted &&
              t.challenges == if open then s.challenges[id := s.challenges[id].(attempts := s.challenges[id].attempts + 1)] else s.challenges
            else
              var entitled :=
                match p.proof.value
                case Totp(m, counter) =>
                  m in s.methods && s.methods[m].active && (s.methods[m].lastUsed.Some? ==> s.methods[m].lastUsed.value < counter)
                case Recovery(hash) => hash in s.codes && s.codes[hash].userId == p.userId && !s.codes[hash].used;
              if open && p.now < s.challenges[id].expiresAt && entitled then
                t.accepted == s.accepted + [Acceptance(id, p.proof.value, p.now)] && t.challenges[id].consumed
              else t == s.(pending := t.pending)
  {
  }

  /** A new factor belongs to its owner and can be used; one that is disabled cannot. */
  lemma FactorsOfOwners(s: State, id: string, owner: string)
    ensures id !in s.methods ==> Next(s, AddMethod(id, owner)).methods == s.methods[id := Method(owner, true, None)]
    ensures id !in s.codes ==> Next(s, AddCode(id, owner)).codes == s.codes[id := RecoveryCode(owner, false)]
    ensures id in s.methods ==> !Next(s, DisableMethod(id)).methods[id].active
  {
  }

  // ----- what is accepted -----

  /** How often a challenge was accepted. */
  function TimesChallenge(log: seq<Acceptance>, id: string): nat {
    if log == [] then 0 else TimesChallenge(log[..|log| - 1], id) + if log[|log| - 1].challengeId == id then 1 else 0
  }

  function TimesCode(log: seq<Acceptance>, hash: string): nat {
    if log == [] then 0 else TimesCode(log[..|log| - 1], hash) + if log[|log| - 1].proof == Recovery(hash) then 1 else 0
  }

  /** The counters accepted for a method, in order, among requests made between `from` and `to`. */
  function Counters(log: seq<Acceptance>, methodId: string, from: int, to: int): seq<int> {
    if log == [] then []
    else
      var last := log[|log| - 1];
      Counters(log[..|log| - 1], methodId, from, to) +
      if last.proof.Totp? && last.proof.methodId == methodId && from <= last.now <= to then [last.proof.counter] else []
  }

  predicate Increasing(counters: seq<int>) {
    forall i, j :: 0 <= i < j < |counters| ==> counters[i] < counters[j]
  }

  predicate NotAbove(counters: seq<int>, limit: int) {
    forall c :: c in counters ==> c <= limit
  }

  predicate InWindow(proof: Proof, now: int) {
    proof.Totp? ==> CounterAt(now) - SKEW <= proof.counter <= CounterAt(now) + SKEW
  }

  /** The request that a step finishes with a valid proof. */
  predicate Accepts(s: State, step: Step) {
    step.Finish? && step.request in s.pending &&
    var p := s.pending[step.request];
    p.proof.Some? && Usable(s, p.challengeId, p.now) && Consumed(s, p.userId, p.proof.value).Some?
  }

  /** Only an accepting step writes the log, and it writes one entry. */
  lemma LogGrows(s: State, step: Step)
    ensures !Accepts(s, step) ==> Next(s, step).accepted == s.accepted
    ensures Accepts(s, step) ==>
              var p, log := s.pending[step.request], Next(s, step).accepted;
              log == s.accepted + [Acceptance(p.challengeId, p.proof.value, p.now)] && log[..|log| - 1] == s.accepted
  {
  }

  // ----- a challenge -----

  predicate ChallengeOk(s: State, id: string) {
    TimesChallenge(s.accepted, id) <= if id in s.challenges && s.challenges[id].consumed then 1 else 0
  }

  lemma ChallengeStep(s: State, step: Step, id: string)
    requires ChallengeOk(s, id)
    ensures ChallengeOk(Next(s, step), id)
  {
    LogGrows(s, step);
  }

  lemma {:induction false} ChallengeRun(s: State, steps: seq<Step>, id: string)
    requires ChallengeOk(s, id)
    ensures ChallengeOk(Execute(s, steps), id)
    decreases |steps|
  {
    if steps != [] {
      ChallengeStep(s, steps[0], id);
      ChallengeRun(Next(s, steps[0]), steps[1..], id);
    }
  }

  // ----- a recovery code -----

  predicate CodeOk(s: State, hash: string) {
    TimesCode(s.accepted, hash) <= if hash in s.codes && s.codes[hash].used then 1 else 0
  }

  lemma CodeStep(s: State, step: Step, hash: string)
    requires CodeOk(s, hash)
    ensures CodeOk(Next(s, step), hash)
  {
    LogGrows(s, step);
  }

  lemma {:induction false} CodeRun(s: State, steps: seq<Step>, hash: string)
    requires CodeOk(s, hash)
    ensures CodeOk(Execute(s, steps), hash)
    decreases |steps|
  {
    if steps != [] {
      CodeStep(s, steps[0], hash);
      CodeRun(Next(s, steps[0]), steps[1..], hash);
    }
  }

  // ----- a method's counters -----

  predicate MethodOk(s: State, methodId: string, from: int, to: int) {
    var counters := Counters(s.accepted, methodId, from, to);
    Increasing(counters) &&
    (counters != [] ==> methodId in s.methods && s.methods[methodId].lastUsed.Some? && NotAbove(counters, s.methods[methodId].lastUsed.value))
  }

  /** lastUsedCounter never falls. */
  lemma LastUsedRises(s: State, step: Step, methodId: string)
    requires methodId in s.methods && s.methods[methodId].lastUsed.Some?
    ensures var t := Next(s, step);
            methodId in t.methods && t.methods[methodId].lastUsed.Some? &&
            s.methods[methodId].lastUsed.value <= t.methods[methodId].lastUsed.value
  {
  }

  lemma AppendCounter(counters: seq<int>, limit: int, c: int)
    requires Increasing(counters) && (counters != [] ==> NotAbove(counters, limit) && limit < c)
    ensures Increasing(counters + [c]) && NotAbove(counters + [c], c)
  {
    forall i, j | 0 <= i < j < |counters + [c]|
      ensures (counters + [c])[i] < (counters + [c])[j]
    {
      if j == |counters| {
        assert counters[i] in counters;
      }
    }
  }

  lemma MethodStep(s: State, step: Step, methodId: string, from: int, to: int)
    requires MethodOk(s, methodId, from, to)
    ensures MethodOk(Next(s, step), methodId, from, to)
  {
    LogGrows(s, step);
    var before := Counters(s.accepted, methodId, from, to);
    if before != [] {
      LastUsedRises(s, step, methodId);
    }
    if Accepts(s, step) && s.pending[step.request].proof.value.Totp? && s.pending[step.request].proof.value.methodId == methodId {
      var last := s.methods[methodId].lastUsed;
      AppendCounter(before, last.GetOr(0), s.pending[step.request].proof.value.counter);
    } else {
      assert before + [] == before;
    }
  }

  lemma {:induction false} MethodRun(s: State, steps: seq<Step>, methodId: string, from: int, to: int)
    requires MethodOk(s, methodId, from, to)
    ensures MethodOk(Execute(s, steps), methodId, from, to)
    decreases |steps|
  {
    if steps != [] {
      MethodStep(s, steps[0], methodId, from, to);
      MethodRun(Next(s, steps[0]), steps[1..], methodId, from, to);
    }
  }

  // ----- windows and attempts -----

  predicate WindowsOk(s: State) {
    (forall r :: r in s.pending && s.pending[r].proof.Some? ==> InWindow(s.pending[r].proof.value, s.pending[r].now)) &&
    (forall i :: 0 <= i < |s.accepted| ==> InWindow(s.accepted[i].proof, s.accepted[i].now)) &&
    (forall id :: id in s.challenges ==> s.challenges[id].attempts <= MAX_ATTEMPTS)
  }

  lemma WindowsStep(s: State, step: Step)
    requires WindowsOk(s)
    ensures WindowsOk(Next(s, step))
  {
    LogGrows(s, step);
  }

  lemma {:induction false} WindowsRun(s: State, steps: seq<Step>)
    requires WindowsOk(s)
    ensures WindowsOk(Execute(s, steps))
    decreases |steps|
  {
    if steps != [] {
      WindowsStep(s, steps[0]);
      WindowsRun(Next(s, steps[0]), steps[1..]);
    }
  }

  // ----- guesses at one challenge -----

  /** A step compares a wrong code against the challenge. */
  predicate IsGuess(s: State, step: Step, id: string) {
    step.Verify? && step.challengeId == id && Usable(s, id, step.now) && step.request !in s.pending &&
    ProofOf(s, s.challenges[id].userId, step.typed, step.now).None?
  }

  /** Requests that have compared a wrong code and not counted the attempt yet. */
  function OpenGuesses(s: State, id: string): set<nat> {
    set r | r in s.pending && s.pending[r].challengeId == id && s.pending[r].proof.None?
  }

  function GuessesIn(steps: seq<Step>, id: string): nat {
    if steps == [] then 0
    else
      var before, last := steps[..|steps| - 1], steps[|steps| - 1];
      GuessesIn(before, id) + if IsGuess(Execute(Initial, before), last, id) then 1 else 0
  }

  /** In no state of a run are more than n such requests open. */
  predicate AtMostOpen(steps: seq<Step>, id: string, n: nat) {
    |OpenGuesses(Execute(Initial, steps), id)| <= n && (steps != [] ==> AtMostOpen(steps[..|steps| - 1], id, n))
  }

  lemma {:induction false} ExecuteLast(s: State, steps: seq<Step>, last: Step)
    ensures Execute(s, steps + [last]) == Next(Execute(s, steps), last)
    decreases |steps|
  {
    if steps == [] {
      assert [last][1..] == [] && steps + [last] == [last];
    } else {
      ExecuteLast(Next(s, steps[0]), steps[1..], last);
      assert (steps + [last])[1..] == steps[1..] + [last];
    }
  }

  lemma OpenGuessesStep(s: State, step: Step, id: string)
    ensures IsGuess(s, step, id) ==>
              step.request !in OpenGuesses(s, id) && OpenGuesses(Next(s, step), id) == OpenGuesses(s, id) + {step.request}
    ensures step.Finish? ==> OpenGuesses(Next(s, step), id) == OpenGuesses(s, id) - {step.request}
    ensures !IsGuess(s, step, id) && !step.Finish? ==> OpenGuesses(Next(s, step), id) == OpenGuesses(s, id)
  {
  }

  /** The challenge takes attempts. */
  predicate Live(s: State, id: string) {
    id in s.challenges && !s.challenges[id].consumed && s.challenges[id].attempts < MAX_ATTEMPTS
  }

  /** Step `step` finishes a request that has compared a wrong code against the challenge. */
  predicate CountsGuess(s: State, step: Step, id: string) {
    step.Finish? && step.request in OpenGuesses(s, id)
  }

  lemma AttemptsStep(s: State, step: Step, id: string)
    ensures id in s.challenges ==> id in Next(s, step).challenges
    ensures Live(Next(s, step), id) && id !in s.challenges ==> Next(s, step).challenges[id].attempts == 0
    ensures Live(Next(s, step), id) && id in s.challenges ==>
              Live(s, id) &&
              Next(s, step).challenges[id].attempts == s.challenges[id].attempts + if CountsGuess(s, step, id) then 1 else 0
  {
  }

  /** While the challenge takes attempts, every guess is counted or open; afterwards there are no more guesses. */
  predicate GuessesCounted(s: State, id: string, guesses: nat, n: nat) {
    (guesses > 0 ==> n > 0 && guesses <= MAX_ATTEMPTS - 1 + n) &&
    (id !in s.challenges ==> guesses == 0 && OpenGuesses(s, id) == {}) &&
    (Live(s, id) ==> guesses == s.challenges[id].attempts + |OpenGuesses(s, id)|)
  }

  lemma NewGuess(s: State, step: Step, id: string, guesses: nat, n: nat)
    requires GuessesCounted(s, id, guesses, n) && |OpenGuesses(Next(s, step), id)| <= n && IsGuess(s, step, id)
    ensures GuessesCounted(Next(s, step), id, guesses + 1, n)
  {
    OpenGuessesStep(s, step, id);
    AttemptsStep(s, step, id);
    assert |OpenGuesses(Next(s, step), id)| == |OpenGuesses(s, id)| + 1;
  }

  lemma NoNewGuess(s: State, step: Step, id: string, guesses: nat, n: nat)
    requires GuessesCounted(s, id, guesses, n) && !IsGuess(s, step, id)
    ensures GuessesCounted(Next(s, step), id, guesses, n)
  {
    OpenGuessesStep(s, step, id);
    AttemptsStep(s, step, id);
    if step.Finish? {
      assert |OpenGuesses(Next(s, step), id)| == |OpenGuesses(s, id)| - if CountsGuess(s, step, id) then 1 else 0;
    }
  }

  lemma {:induction false} GuessesCountedRun(steps: seq<Step>, id: string, n: nat)
    requires AtMostOpen(steps, id, n)
    ensures GuessesCounted(Execute(Initial, steps), id, GuessesIn(steps, id), n)
  {
    if steps != [] {
      var before, last := steps[..|steps| - 1], steps[|steps| - 1];
      GuessesCountedRun(before, id, n);
      assert steps == before + [last];
      ExecuteLast(Initial, before, last);
      if IsGuess(Execute(Initial, before), last, id) {
        NewGuess(Execute(Initial, before), last, id, GuessesIn(before, id), n);
      } else {
        NoNewGuess(Execute(Initial, before), last, id, GuessesIn(before, id), n);
      }
    }
  }

  // ----- a run with as many guesses as the bound allows -----

  function Below(k: nat): (r: set<nat>)
    ensures |r| == k && forall i: nat :: i in r <==> i < k
  {
    if k == 0 then {} else Below(k - 1) + {k - 1}
  }

  /** The challenge "c" after some failures, with requests 0 to open - 1 open. */
  predicate Guessed(s: State, failures: nat, open: nat) {
    s.challenges == map["c" := Challenge("u", false, 1, failures)] && s.codes == map[] &&
    OpenGuesses(s, "c") == Below(open) && s.pending.Keys == Below(open)
  }

  lemma GuessedOnce(s: State, failures: nat, open: nat)
    requires Guessed(s, failures, open) && failures < MAX_ATTEMPTS
    ensures var step := Verify(open, "c", Other("x"), 0); IsGuess(s, step, "c") && Guessed(Next(s, step), failures, open + 1)
  {
    var step := Verify(open, "c", Other("x"), 0);
    assert open !in s.pending.Keys;
    OpenGuessesStep(s, step, "c");
    assert Next(s, step).pending.Keys == s.pending.Keys + {open};
  }

  /** One more wrong code. */
  lemma GuessOnce(steps: seq<Step>, failures: nat, open: nat, n: nat) returns (longer: seq<Step>)
    requires Guessed(Execute(Initial, steps), failures, open) && failures < MAX_ATTEMPTS && open < n
    requires AtMostOpen(steps, "c", n)
    ensures Guessed(Execute(Initial, longer), failures, open + 1) && AtMostOpen(longer, "c", n)
    ensures GuessesIn(longer, "c") == GuessesIn(steps, "c") + 1
  {
    var last := Verify(open, "c", Other("x"), 0);
    longer := steps + [last];
    assert longer[..|longer| - 1] == steps;
    ExecuteLast(Initial, steps, last);
    GuessedOnce(Execute(Initial, steps), failures, open);
  }

  lemma CountedOnce(s: State, failures: nat)
    requires Guessed(s, failures, 1) && failures < MAX_ATTEMPTS
    ensures Guessed(Next(s, Finish(0)), failures + 1, 0)
  {
    assert 0 in OpenGuesses(s, "c");
    assert Next(s, Finish(0)).pending.Keys == {};
  }

  /** The one open request counts its attempt. */
  lemma CountOnce(steps: seq<Step>, failures: nat, n: nat) returns (longer: seq<Step>)
    requires Guessed(Execute(Initial, steps), failures, 1) && failures < MAX_ATTEMPTS
    requires AtMostOpen(steps, "c", n)
    ensures Guessed(Execute(Initial, longer), failures + 1, 0) && AtMostOpen(longer, "c", n)
    ensures GuessesIn(longer, "c") == GuessesIn(steps, "c")
  {
    longer := steps + [Finish(0)];
    assert longer[..|longer| - 1] == steps;
    ExecuteLast(Initial, steps, Finish(0));
    CountedOnce(Execute(Initial, steps), failures);
  }

  lemma FirstChallenge(n: nat)
    ensures var steps := [AddChallenge("c", "u", 1)];
            Guessed(Execute(Initial, steps), 0, 0) && AtMostOpen(steps, "c", n) && GuessesIn(steps, "c") == 0
  {
    var add := AddChallenge("c", "u", 1);
    ExecuteLast(Initial, [], add);
    assert [] + [add] == [add] && [add][..0] == [] && Execute(Initial, []) == Initial;
    assert OpenGuesses(Initial, "c") == {} && OpenGuesses(Next(Initial, add), "c") == {};
    assert AtMostOpen([], "c", n) && GuessesIn([], "c") == 0;
  }

  lemma FailOnce(before: seq<Step>, failures: nat, n: nat) returns (steps: seq<Step>)
    requires Guessed(Execute(Initial, before), failures, 0) && failures < MAX_ATTEMPTS && n > 0
    requires AtMostOpen(before, "c", n)
    ensures Guessed(Execute(Initial, steps), failures + 1, 0) && AtMostOpen(steps, "c", n)
    ensures GuessesIn(steps, "c") == GuessesIn(before, "c") + 1
  {
    var guessed := GuessOnce(before, failures, 0, n);
    steps := CountOnce(guessed, failures, n);
  }

  lemma {:induction false} Failures(failures: nat, n: nat) returns (steps: seq<Step>)
    requires failures < MAX_ATTEMPTS && n > 0
    ensures Guessed(Execute(Initial, steps), failures, 0) && AtMostOpen(steps, "c", n) && GuessesIn(steps, "c") == failures
  {
    if failures == 0 {
      steps := [AddChallenge("c", "u", 1)];
      FirstChallenge(n);
    } else {
      var before := Failures(failures - 1, n);
      steps := FailOnce(before, failures - 1, n);
    }
  }

  lemma {:induction false} ManyOpen(open: nat, n: nat) returns (steps: seq<Step>)
    requires open <= n && n > 0
    ensures Guessed(Execute(Initial, steps), MAX_ATTEMPTS - 1, open) && AtMostOpen(steps, "c", n)
    ensures GuessesIn(steps, "c") == MAX_ATTEMPTS - 1 + open
  {
    if open == 0 {
      steps := Failures(MAX_ATTEMPTS - 1, n);
    } else {
      steps := ManyOpen(open - 1, n);
      steps := GuessOnce(steps, MAX_ATTEMPTS - 1, open - 1, n);
    }
  }

  // ----- the results -----

  /** However requests interleave, a challenge authenticates at most once and a recovery code is used at most once. */
  lemma EachUsedOnce(steps: seq<Step>, challengeId: string, hash: string)
    ensures var s := Execute(Initial, steps);
            TimesChallenge(s.accepted, challengeId) <= 1 && TimesCode(s.accepted, hash) <= 1 &&
            forall id :: id in s.challenges ==> s.challenges[id].attempts <= MAX_ATTEMPTS
  {
    ChallengeRun(Initial, steps, challengeId);
    CodeRun(Initial, steps, hash);
    WindowsRun(Initial, steps);
  }

  /** Some run makes that many guesses at one challenge with at most n requests open at once. */
  ghost predicate CanGuess(guesses: nat, n: nat) {
    exists steps, id :: AtMostOpen(steps, id, n) && GuessesIn(steps, id) >= guesses
  }

  /** With at most n requests open at once a challenge takes up to 4 + n guesses: five in sequence, more only in parallel. */
  lemma GuessesIff(guesses: nat, n: nat)
    ensures CanGuess(guesses, n) <==> guesses == 0 || (n > 0 && guesses <= MAX_ATTEMPTS - 1 + n)
  {
    if CanGuess(guesses, n) {
      var steps, id :| AtMostOpen(steps, id, n) && GuessesIn(steps, id) >= guesses;
      GuessesCountedRun(steps, id, n);
    }
    if n > 0 {
      var steps := ManyOpen(n, n);
    } else if guesses == 0 {
      assert OpenGuesses(Execute(Initial, []), "c") == {};
      assert AtMostOpen([], "c", n) && GuessesIn([], "c") >= guesses;
    }
  }

  /** Accepted counters of a method strictly increase, so there is at most one acceptance per 30-second counter. */
  lemma CountersIncrease(steps: seq<Step>, methodId: string, from: int, to: int)
    ensures Increasing(Counters(Execute(Initial, steps).accepted, methodId, from, to))
  {
    MethodRun(Initial, steps, methodId, from, to);
  }

  lemma {:induction false} IncreasingIsShort(counters: seq<int>, low: int, high: int)
    requires Increasing(counters) && forall c :: c in counters ==> low <= c <= high
    ensures counters != [] ==> |counters| <= high - low + 1
  {
    if |counters| > 1 {
      var before, last := counters[..|counters| - 1], counters[|counters| - 1];
      assert last in counters;
      forall c | c in before
        ensures low <= c <= last - 1
      {
        var i :| 0 <= i < |before| && before[i] == c;
        assert counters[i] in counters && counters[i] < counters[|counters| - 1];
      }
      IncreasingIsShort(before, low, last - 1);
    } else if |counters| == 1 {
      assert counters[0] in counters;
    }
  }

  lemma CounterMonotone(a: int, b: int)
    requires a <= b
    ensures CounterAt(a) <= CounterAt(b)
  {
  }

  lemma {:induction false} CountersInWindow(log: seq<Acceptance>, methodId: string, from: int, to: int)
    requires forall i :: 0 <= i < |log| ==> InWindow(log[i].proof, log[i].now)
    ensures forall c :: c in Counters(log, methodId, from, to) ==> CounterAt(from) - SKEW <= c <= CounterAt(to) + SKEW
  {
    if log != [] {
      var last := log[|log| - 1];
      CountersInWindow(log[..|log| - 1], methodId, from, to);
      assert InWindow(last.proof, last.now);
      if from <= last.now <= to {
        CounterMonotone(from, last.now);
        CounterMonotone(last.now, to);
      }
    }
  }

  /** Between two times a method accepts at most three codes more than counters have passed. */
  lemma BoundedAcceptances(steps: seq<Step>, methodId: string, from: int, to: int)
    requires from <= to
    ensures |Counters(Execute(Initial, steps).accepted, methodId, from, to)| <= CounterAt(to) - CounterAt(from) + 3
  {
    var s := Execute(Initial, steps);
    MethodRun(Initial, steps, methodId, from, to);
    WindowsRun(Initial, steps);
    CountersInWindow(s.accepted, methodId, from, to);
    CounterMonotone(from, to);
    IncreasingIsShort(Counters(s.accepted, methodId, from, to), CounterAt(from) - SKEW, CounterAt(to) + SKEW);
  }
}
