/** Evidence envelopes: evidence with the SHA-256 of its canonical print, and the files that hold them. */
module GovernanceEvidence {
  import opened Wrappers
  import opened Utf16
  import opened Json
  import opened JsonRoundTrip
  import opened CanonicalJson

  /** What the hash field of an envelope holds: a digest in hexadecimal, or some other string. */
  datatype HashField = Hex(digest: Digest) | NotHex(text: Text)

  datatype Envelope = Envelope(envelopeVersion: int, evidence: Value, evidenceSha256: HashField, extraKeys: set<Text>)

  datatype EvidenceError = NotJson | NotAnObject | InvalidEvidence | InvalidEnvelope | Tampered

  /** Whether evidence is valid depends on its keys and values, not on their order. */
  type Check = Meaning -> bool

  function CreateEnvelope(evidence: Value, valid: Check): Result<Envelope, EvidenceError> {
    if !valid(MeaningOf(evidence)) then Err(InvalidEvidence)
    else Ok(Envelope(1, evidence, Hex(Hash(Canonical(evidence))), {}))
  }

  function VerifyEnvelope(envelope: Envelope, valid: Check): Result<Envelope, EvidenceError> {
    if envelope.extraKeys != {} || envelope.envelopeVersion != 1 || envelope.evidenceSha256.NotHex? then Err(InvalidEnvelope)
    else if !valid(MeaningOf(envelope.evidence)) then Err(InvalidEvidence)
    else if Hash(Canonical(envelope.evidence)) != envelope.evidenceSha256.digest then Err(Tampered)
    else Ok(envelope)
  }

  // ----- files -----

  function Ascii(s: string): (r: Text)
    requires forall i :: 0 <= i < |s| ==> s[i] as int < 0x80
    ensures |r| == |s|
  {
    seq(|s|, i requires 0 <= i < |s| => s[i] as int)
  }

  const VERSION: Text := Ascii("envelopeVersion")
  const EVIDENCE: Text := Ascii("evidence")
  const SHA256: Text := Ascii("evidenceSha256")
  const LF: Unit := 0x0A

  /** A digest in hexadecimal, and what a string in the hash field stands for. */
  datatype HexCode = HexCode(text: Digest -> Text, read: Text -> HashField) {
    ghost predicate Valid() {
      forall d :: read(text(d)) == Hex(d)
    }
  }

  /** The object that is written for an envelope around `evidence` with the given digest. */
  function EnvelopeValue(evidence: Value, digest: Digest, hex: HexCode): Value {
    Obj([Field(VERSION, Num(1)), Field(EVIDENCE, evidence), Field(SHA256, Str(hex.text(digest)))])
  }

  function FileText(v: Value): Text {
    Canonical(v) + [LF]
  }

  function WriteFile(evidence: Value, valid: Check, hex: HexCode): Result<Text, EvidenceError> {
    match CreateEnvelope(evidence, valid)
    case Err(e) => Err(e)
    case Ok(envelope) => Ok(FileText(EnvelopeValue(envelope.evidence, envelope.evidenceSha256.digest, hex)))
  }

  predicate IsBlank(rest: Text) {
    forall u :: u in rest ==> u == 0x20 || u == 0x09 || u == LF || u == 0x0D
  }

  /** Of equal keys in a file the last one counts. */
  function Lookup(fields: seq<Field>, key: Text): Option<Value> {
    if fields == [] then None
    else if Lookup(fields[1..], key).Some? then Lookup(fields[1..], key)
    else if fields[0].key == key then Some(fields[0].value)
    else None
  }

  /** The checks in the program's order; reading fields of null or undefined throws. */
  function VerifyParsed(v: Value, valid: Check, hex: HexCode): Result<Envelope, EvidenceError> {
    if v.Null? then Err(NotAnObject)
    else if !v.Obj? then Err(InvalidEnvelope)
    else
      var version, sha, evidence := Lookup(v.fields, VERSION), Lookup(v.fields, SHA256), Lookup(v.fields, EVIDENCE);
      if version != Some(Num(1)) || sha.None? || !sha.value.Str? then Err(InvalidEnvelope)
      else
        var extra := Keys(v.fields) - {VERSION, EVIDENCE, SHA256};
        var field := hex.read(sha.value.s);
        if evidence.None? then Err(if extra != {} || field.NotHex? then InvalidEnvelope else NotAnObject)
        else VerifyEnvelope(Envelope(1, evidence.value, field, extra), valid)
  }

  function VerifyFile(text: Text, valid: Check, hex: HexCode): Result<Envelope, EvidenceError> {
    match ParseValue(text)
    case Some(Parsed(v, rest)) => if IsBlank(rest) then VerifyParsed(v, valid, hex) else Err(NotJson)
    case None => Err(NotJson)
  }

  // ----- envelopes -----

  /** Canonical prints are well-formed text, so their hashes differ whenever they do. */
  lemma HashesDecide(v: Value, w: Value)
    requires DistinctKeys(v) && DistinctKeys(w)
    ensures Hash(Canonical(v)) == Hash(Canonical(w)) <==> MeaningOf(v) == MeaningOf(w)
  {
    CanonicalIsSortedPrint(v);
    CanonicalIsSortedPrint(w);
    PrintWellFormed(SortDeep(v));
    PrintWellFormed(SortDeep(w));
    HashInjective(Canonical(v), Canonical(w));
    CanonicalIff(v, w);
  }

  /** A created envelope verifies. */
  lemma CreatedVerifies(evidence: Value, valid: Check)
    ensures var made := CreateEnvelope(evidence, valid);
            if valid(MeaningOf(evidence)) then made.Ok? && VerifyEnvelope(made.value, valid) == made
            else made == Err(InvalidEvidence)
  {
  }

  /**
   * Whatever happens to the evidence of a created envelope, it verifies exactly when it is still
   * valid and means the same; otherwise the error says which of the two failed.
   */
  lemma TamperingIsDetected(evidence: Value, altered: Value, valid: Check)
    requires valid(MeaningOf(evidence)) && DistinctKeys(evidence) && DistinctKeys(altered)
    ensures var made := CreateEnvelope(evidence, valid).value.(evidence := altered);
            VerifyEnvelope(made, valid) ==
              if !valid(MeaningOf(altered)) then Err(InvalidEvidence)
              else if MeaningOf(altered) == MeaningOf(evidence) then Ok(made)
              else Err(Tampered)
  {
    HashesDecide(altered, evidence);
  }

  // ----- from a file back to the envelope -----

  lemma {:induction false} SortedIsDistinct(v: Value)
    requires SortedDeep(v)
    ensures DistinctKeys(v)
    decreases v, 0
  {
    match v
    case Arr(items) => SortedItemsAreDistinct(items);
    case Obj(fields) => SortedFieldsAreDistinct(fields);
    case _ =>
  }

  lemma {:induction false} SortedItemsAreDistinct(items: seq<Value>)
    requires SortedInItems(items)
    ensures DistinctInItems(items)
    decreases items, 1
  {
    if items != [] {
      SortedIsDistinct(items[0]);
      SortedItemsAreDistinct(items[1..]);
    }
  }

  lemma {:induction false} SortedFieldsAreDistinct(fields: seq<Field>)
    requires SortedByKey(fields) && SortedInFields(fields)
    ensures DistinctInFields(fields)
    decreases fields, 1
  {
    if fields != [] {
      LessTotal(fields[0].key, fields[0].key);
      SortedIsDistinct(fields[0].value);
      SortedFieldsAreDistinct(fields[1..]);
    }
  }

  /** Looking a key up finds what its meaning says. */
  lemma {:induction false} LookupMeans(fields: seq<Field>, key: Text)
    requires DistinctInFields(fields)
    ensures Lookup(fields, key).Some? <==> key in Keys(fields)
    ensures key in Keys(fields) ==>
              MeaningOf(Lookup(fields, key).value) == MeaningOfFields(fields)[key] && DistinctKeys(Lookup(fields, key).value)
  {
    if fields != [] {
      LookupMeans(fields[1..], key);
    }
  }

  lemma FieldInFront(f: Field, rest: seq<Field>)
    requires DistinctInFields(rest) && DistinctKeys(f.value) && f.key !in Keys(rest)
    ensures var all := [f] + rest;
            DistinctInFields(all) && Keys(all) == Keys(rest) + {f.key} &&
            MeaningOfFields(all) == MeaningOfFields(rest)[f.key := MeaningOf(f.value)]
  {
    assert ([f] + rest)[1..] == rest;
  }

  lemma NamesDiffer()
    ensures VERSION != EVIDENCE && VERSION != SHA256 && EVIDENCE != SHA256
  {
    assert |VERSION| == 15 && |EVIDENCE| == 8 && |SHA256| == 14;
  }

  /** An envelope's object is well formed, and this is what it means. */
  lemma EnvelopeMeans(evidence: Value, digest: Digest, hex: HexCode)
    requires DistinctKeys(evidence)
    ensures DistinctKeys(EnvelopeValue(evidence, digest, hex))
    ensures MeaningOf(EnvelopeValue(evidence, digest, hex)) ==
              MObj(map[VERSION := MNum(1), EVIDENCE := MeaningOf(evidence), SHA256 := MStr(hex.text(digest))])
  {
    var f1, f2, f3 := Field(VERSION, Num(1)), Field(EVIDENCE, evidence), Field(SHA256, Str(hex.text(digest)));
    NamesDiffer();
    FieldInFront(f3, []);
    FieldInFront(f2, [f3] + []);
    FieldInFront(f1, [f2] + ([f3] + []));
    assert [f1, f2, f3] == [f1] + ([f2] + ([f3] + []));
  }

  /** An object with the meaning of an envelope is verified as that envelope. */
  lemma ParsedEnvelope(v: Value, evidence: Meaning, digest: Digest, valid: Check, hex: HexCode)
    requires DistinctKeys(v) && hex.Valid()
    requires MeaningOf(v) == MObj(map[VERSION := MNum(1), EVIDENCE := evidence, SHA256 := MStr(hex.text(digest))])
    ensures v.Obj? && Lookup(v.fields, EVIDENCE).Some?
    ensures var found := Lookup(v.fields, EVIDENCE).value;
            DistinctKeys(found) && MeaningOf(found) == evidence &&
            VerifyParsed(v, valid, hex) == VerifyEnvelope(Envelope(1, found, Hex(digest), {}), valid)
  {
    LookupMeans(v.fields, VERSION);
    LookupMeans(v.fields, EVIDENCE);
    LookupMeans(v.fields, SHA256);
    assert Keys(v.fields) == {VERSION, EVIDENCE, SHA256};
    assert hex.read(hex.text(digest)) == Hex(digest);
  }

  /** The object has the envelope's fields and no others, version 1 and a digest in hexadecimal. */
  predicate IsEnvelope(v: Value, hex: HexCode) {
    v.Obj? && Keys(v.fields) == {VERSION, EVIDENCE, SHA256} && Lookup(v.fields, VERSION) == Some(Num(1)) &&
    Lookup(v.fields, SHA256).Some? && Lookup(v.fields, SHA256).value.Str? && hex.read(Lookup(v.fields, SHA256).value.s).Hex?
  }

  lemma {:induction false} LookupInKeys(fields: seq<Field>, key: Text)
    ensures Lookup(fields, key).Some? <==> key in Keys(fields)
  {
    if fields != [] {
      LookupInKeys(fields[1..], key);
    }
  }

  /**
   * What is accepted: exactly the objects that are envelopes around valid evidence with that evidence's own
   * hash.  An envelope fails for its evidence or its hash, and anything else for its form.
   */
  lemma ParsedVerifiesIff(v: Value, valid: Check, hex: HexCode)
    ensures var r := VerifyParsed(v, valid, hex);
            if IsEnvelope(v, hex) then
              Lookup(v.fields, EVIDENCE).Some? &&
              var evidence := Lookup(v.fields, EVIDENCE).value;
              if !valid(MeaningOf(evidence)) then r == Err(InvalidEvidence)
              else if hex.read(Lookup(v.fields, SHA256).value.s) != Hex(Hash(Canonical(evidence))) then r == Err(Tampered)
              else r.Ok? && r.value.evidence == evidence
            else r == Err(InvalidEnvelope) || r == Err(NotAnObject)
    ensures VerifyParsed(v, valid, hex) == Err(NotAnObject) <==>
              v.Null? || (v.Obj? && EVIDENCE !in Keys(v.fields) && IsEnvelope(Obj(v.fields + [Field(EVIDENCE, Null)]), hex))
  {
    if v.Obj? {
      LookupInKeys(v.fields, VERSION);
      LookupInKeys(v.fields, EVIDENCE);
      LookupInKeys(v.fields, SHA256);
      NamesDiffer();
      KeysAppend(v.fields, Field(EVIDENCE, Null));
      LookupAppend(v.fields, Field(EVIDENCE, Null), VERSION);
      LookupAppend(v.fields, Field(EVIDENCE, Null), SHA256);
    }
  }

  lemma {:induction false} KeysAppend(fields: seq<Field>, f: Field)
    ensures Keys(fields + [f]) == Keys(fields) + {f.key}
  {
    if fields == [] {
      assert fields + [f] == [f] && [f][1..] == [];
    } else {
      KeysAppend(fields[1..], f);
      assert (fields + [f])[1..] == fields[1..] + [f];
    }
  }

  lemma {:induction false} LookupAppend(fields: seq<Field>, f: Field, key: Text)
    requires f.key != key
    ensures Lookup(fields + [f], key) == Lookup(fields, key)
  {
    if fields == [] {
      assert fields + [f] == [f] && [f][1..] == [];
    } else {
      LookupAppend(fields[1..], f, key);
      assert (fields + [f])[1..] == fields[1..] + [f];
    }
  }

  /** Text that is not JSON, or goes on after the value with something else than white space, is refused as such. */
  lemma UnreadableFiles(text: Text, valid: Check, hex: HexCode)
    ensures VerifyFile(text, valid, hex) == Err(NotJson) <==>
              ParseValue(text).None? || exists u :: u in ParseValue(text).value.rest && u !in {0x20, 0x09, 0x0A, 0x0D}
  {
    if ParseValue(text).Some? {
      ParsedVerifiesIff(ParseValue(text).value.value, valid, hex);
    }
  }

  /**
   * A file written for an envelope in which the evidence was exchanged verifies exactly when the new
   * evidence is valid and means the same, and reading it gives that evidence back.
   */
  lemma AlteredFileIsDetected(evidence: Value, altered: Value, valid: Check, hex: HexCode)
    requires DistinctKeys(evidence) && DistinctKeys(altered) && hex.Valid()
    ensures var digest := Hash(Canonical(evidence));
            var read := VerifyFile(FileText(EnvelopeValue(altered, digest, hex)), valid, hex);
            if !valid(MeaningOf(altered)) then read == Err(InvalidEvidence)
            else if MeaningOf(altered) != MeaningOf(evidence) then read == Err(Tampered)
            else read.Ok? && MeaningOf(read.value.evidence) == MeaningOf(evidence) && read.value.evidenceSha256 == Hex(digest)
  {
    var digest := Hash(Canonical(evidence));
    EnvelopeMeans(altered, digest, hex);
    CanonicalParsesBack(EnvelopeValue(altered, digest, hex), [LF]);
    var v := ParseValue(FileText(EnvelopeValue(altered, digest, hex))).value.value;
    SortedIsDistinct(v);
    ParsedEnvelope(v, MeaningOf(altered), digest, valid, hex);
    HashesDecide(Lookup(v.fields, EVIDENCE).value, evidence);
  }

  /** What is written verifies when it is read back, with the same evidence and hash; invalid evidence is not written. */
  lemma WrittenFileVerifies(evidence: Value, valid: Check, hex: HexCode)
    requires DistinctKeys(evidence) && hex.Valid()
    ensures var written := WriteFile(evidence, valid, hex);
            if !valid(MeaningOf(evidence)) then written == Err(InvalidEvidence)
            else
              written.Ok? &&
              var read := VerifyFile(written.value, valid, hex);
              read.Ok? && MeaningOf(read.value.evidence) == MeaningOf(evidence) &&
              read.value.evidenceSha256 == Hex(Hash(Canonical(evidence)))
  {
    AlteredFileIsDetected(evidence, evidence, valid, hex);
  }
}
