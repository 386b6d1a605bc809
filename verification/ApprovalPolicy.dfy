/** Governance approval policies, and the fingerprint that ties a request to its payload. */
module ApprovalPolicy {
  import opened Wrappers
  import opened Utf16
  import opened Json
  import opened JsonRoundTrip
  import opened CanonicalJson

  datatype Scope = Platform | Organization

  datatype Policy = Policy(scope: Scope, minimumApprovals: nat, ttlSeconds: nat, confirmationPhrase: Text, safeParameterKeys: seq<Text>)

  function Ascii(s: string): (t: Text)
    ensures |t| == |s|
  {
    seq(|s|, i requires 0 <= i < |s| => if s[i] as int < 0x80 then s[i] as int else 0)
  }

  function AsciiAll(names: seq<string>): seq<Text> {
    seq(|names|, i requires 0 <= i < |names| => Ascii(names[i]))
  }

  function MakePolicy(scope: Scope, phrase: string, keys: seq<string>): (p: Policy)
    ensures p.minimumApprovals == 1 && p.ttlSeconds == 600
  {
    Policy(scope, 1, 10 * 60, Ascii(phrase), AsciiAll(keys))
  }

  /** Every policy asks for one approval within ten minutes. */
  function GetPolicy(actionType: Text): (p: Option<Policy>)
    ensures p.Some? ==> p.value.minimumApprovals == 1 && p.value.ttlSeconds == 600
  {
    if actionType == Ascii("PLATFORM_OWNER_ASSIGN") then
      Some(MakePolicy(Platform, "ASSIGN PLATFORM OWNER", ["targetUserId", "assignmentVersion"]))
    else if actionType == Ascii("PLATFORM_OWNER_REMOVE") then
      Some(MakePolicy(Platform, "REMOVE PLATFORM OWNER", ["targetUserId", "assignmentVersion"]))
    else if actionType == Ascii("ORGANIZATION_LAST_OWNER_TRANSFER") then
      Some(MakePolicy(Organization, "TRANSFER LAST OWNER", ["sourceMembershipId", "targetMembershipId"]))
    else if actionType == Ascii("ORGANIZATION_REQUIRED_SSO_EMERGENCY_DISABLE") then
      Some(MakePolicy(Organization, "EMERGENCY DISABLE SSO", ["policyVersion"]))
    else if actionType == Ascii("ORGANIZATION_BREAK_GLASS_DISABLE") then
      Some(MakePolicy(Organization, "DISABLE BREAK GLASS", ["policyVersion"]))
    else if actionType == Ascii("IDENTITY_PROVIDER_DELETE") then
      Some(MakePolicy(Organization, "DELETE IDENTITY PROVIDER", ["providerId", "configurationVersion"]))
    else if actionType == Ascii("PLATFORM_AUDIT_EXPORT") then
      Some(MakePolicy(Platform, "EXPORT PLATFORM AUDIT", ["from", "to", "format"]))
    else if actionType == Ascii("ORGANIZATION_AUDIT_EXPORT") then
      Some(MakePolicy(Organization, "EXPORT ORGANIZATION AUDIT", ["from", "to", "format"]))
    else if actionType == Ascii("BULK_TENANT_EXPORT") then
      Some(MakePolicy(Organization, "EXPORT TENANT DATA", ["exportKind", "format"]))
    else if actionType == Ascii("KNOWLEDGE_VISIBILITY_PUBLIC") then
      Some(MakePolicy(Organization, "PUBLISH ORGANIZATION KNOWLEDGE", ["articleId", "articleVersion"]))
    else if actionType == Ascii("CROSS_TENANT_SUPPORT_DESTRUCTIVE_ACTION") then
      Some(MakePolicy(Platform, "EXECUTE SUPPORT ACTION", ["supportSessionId", "operation", "resourceId", "resourceVersion"]))
    else None
  }

  /** The columns that say what is to be done; `safeParameters` is whatever JSON the column holds. */
  datatype Payload = Payload(
    actionType: Text,
    scope: Scope,
    companyId: Option<Text>,
    resourceId: Option<Text>,
    expectedVersion: Option<int>,
    safeParameters: Value,
    requesterId: Text,
    expiresAt: int)

  datatype PolicyError = UnknownAction | UnsafeParameter | OrganizationRequired | PayloadInvalid

  predicate IsScalar(v: Value) {
    v.Null? || v.Bool? || v.Num? || v.Str?
  }

  /** `asSafeParameters`: an object of scalars. */
  function SafeParameters(v: Value): Option<seq<Field>> {
    if v.Obj? && forall f :: f in v.fields ==> IsScalar(f.value) then Some(v.fields) else None
  }

  function ScopeName(scope: Scope): Text {
    if scope == Platform then Ascii("PLATFORM") else Ascii("ORGANIZATION")
  }

  function TextOrNull(t: Option<Text>): Value {
    if t.Some? then Str(t.value) else Null
  }

  /** The printed document; an instant prints as text that determines it. */
  function FingerprintDocument(p: Payload, parameters: seq<Field>): Value {
    Obj([Field(Ascii("actionType"), Str(p.actionType)),
         Field(Ascii("scope"), Str(ScopeName(p.scope))),
         Field(Ascii("companyId"), TextOrNull(p.companyId)),
         Field(Ascii("resourceId"), TextOrNull(p.resourceId)),
         Field(Ascii("expectedVersion"), if p.expectedVersion.Some? then Num(p.expectedVersion.value) else Null),
         Field(Ascii("safeParameters"), Obj(SortFields(parameters))),
         Field(Ascii("requesterId"), Str(p.requesterId)),
         Field(Ascii("expiresAt"), Num(p.expiresAt))])
  }

  function Fingerprint(p: Payload, parameters: seq<Field>): Result<Digest, PolicyError> {
    var policy := GetPolicy(p.actionType);
    if policy.None? || policy.value.scope != p.scope then Err(UnknownAction)
    else if |parameters| != |policy.value.safeParameterKeys| || exists f :: f in parameters && f.key !in policy.value.safeParameterKeys
    then Err(UnsafeParameter)
    else if p.scope == Organization && (p.companyId.None? || p.companyId.value == []) then Err(OrganizationRequired)
    else Ok(Hash(Print(FingerprintDocument(p, parameters))))
  }

  /** Equal columns, and equal parameters as an object with unordered keys. */
  predicate SamePayload(p: Payload, q: Payload) {
    q.(safeParameters := p.safeParameters) == p && MeaningOf(p.safeParameters) == MeaningOf(q.safeParameters)
  }

  lemma SameDocument(p: Payload, ps: seq<Field>, q: Payload, qs: seq<Field>)
    requires FingerprintDocument(p, ps) == FingerprintDocument(q, qs)
    ensures q.(safeParameters := p.safeParameters) == p && SortFields(ps) == SortFields(qs)
  {
    var a, b := FingerprintDocument(p, ps).fields, FingerprintDocument(q, qs).fields;
    assert a[0] == b[0] && a[1] == b[1] && a[2] == b[2] && a[3] == b[3] && a[4] == b[4] && a[5] == b[5] && a[6] == b[6] && a[7] == b[7];
    assert |ScopeName(p.scope)| == |ScopeName(q.scope)|;
  }

  predicate Scalars(fields: seq<Field>) {
    forall f :: f in fields ==> IsScalar(f.value)
  }

  lemma {:induction false} ScalarsAreSorted(fields: seq<Field>)
    requires Scalars(fields)
    ensures SortedInFields(fields)
  {
    if fields != [] {
      assert fields[0] in fields;
      assert forall f :: f in fields[1..] ==> f in fields;
      ScalarsAreSorted(fields[1..]);
    }
  }

  lemma {:induction false} InsertKeepsScalars(f: Field, sorted: seq<Field>)
    requires IsScalar(f.value) && Scalars(sorted)
    ensures Scalars(InsertField(f, sorted))
  {
    if sorted != [] && !Less(f.key, sorted[0].key) {
      assert forall g :: g in sorted[1..] ==> g in sorted;
      InsertKeepsScalars(f, sorted[1..]);
      assert sorted[0] in sorted;
    }
  }

  lemma {:induction false} SortKeepsScalars(fields: seq<Field>)
    requires Scalars(fields)
    ensures Scalars(SortFields(fields))
  {
    if fields != [] {
      assert fields[0] in fields;
      assert forall f :: f in fields[1..] ==> f in fields;
      SortKeepsScalars(fields[1..]);
      InsertKeepsScalars(fields[0], SortFields(fields[1..]));
    }
  }

  /** Scalar fields of equal meaning sort to the same fields. */
  lemma SortedSame(ps: seq<Field>, qs: seq<Field>)
    requires DistinctInFields(ps) && DistinctInFields(qs) && Scalars(ps) && Scalars(qs)
    ensures SortFields(ps) == SortFields(qs) <==> MeaningOfFields(ps) == MeaningOfFields(qs)
  {
    SortFieldsKeeps(ps);
    SortFieldsKeeps(qs);
    if MeaningOfFields(ps) == MeaningOfFields(qs) {
      SortKeepsScalars(ps);
      SortKeepsScalars(qs);
      ScalarsAreSorted(SortFields(ps));
      ScalarsAreSorted(SortFields(qs));
      FieldsUnique(SortFields(ps), SortFields(qs));
    }
  }

  lemma SameText(v: Value, w: Value)
    ensures Hash(Print(v)) == Hash(Print(w)) <==> v == w
  {
    PrintWellFormed(v);
    PrintWellFormed(w);
    HashInjective(Print(v), Print(w));
    PrintInjective(v, w);
  }

  /** The parameters as they come out of `asSafeParameters`. */
  predicate Usable(p: Payload) {
    DistinctKeys(p.safeParameters) && SafeParameters(p.safeParameters).Some?
  }

  lemma HashIff(p: Payload, q: Payload, ps: seq<Field>, qs: seq<Field>)
    requires Usable(p) && Usable(q) && ps == p.safeParameters.fields && qs == q.safeParameters.fields
    ensures Hash(Print(FingerprintDocument(p, ps))) == Hash(Print(FingerprintDocument(q, qs))) <==> SamePayload(p, q)
  {
    SameText(FingerprintDocument(p, ps), FingerprintDocument(q, qs));
    DocumentIff(p, ps, q, qs);
    ParametersAreFields(p);
    ParametersAreFields(q);
    SortedSame(ps, qs);
  }

  /** Two payloads have the same fingerprint exactly when they are the same, up to the order of parameter keys. */
  lemma FingerprintIff(p: Payload, q: Payload)
    requires Usable(p) && Usable(q)
    requires Fingerprint(p, p.safeParameters.fields).Ok? && Fingerprint(q, q.safeParameters.fields).Ok?
    ensures Fingerprint(p, p.safeParameters.fields) == Fingerprint(q, q.safeParameters.fields) <==> SamePayload(p, q)
  {
    HashIff(p, q, p.safeParameters.fields, q.safeParameters.fields);
  }

  lemma ParametersAreFields(p: Payload)
    requires Usable(p)
    ensures DistinctInFields(p.safeParameters.fields) && Scalars(p.safeParameters.fields)
    ensures MeaningOf(p.safeParameters) == MObj(MeaningOfFields(p.safeParameters.fields))
  {
  }

  lemma DocumentIff(p: Payload, ps: seq<Field>, q: Payload, qs: seq<Field>)
    ensures FingerprintDocument(p, ps) == FingerprintDocument(q, qs) <==>
            q.(safeParameters := p.safeParameters) == p && SortFields(ps) == SortFields(qs)
  {
    if FingerprintDocument(p, ps) == FingerprintDocument(q, qs) {
      SameDocument(p, ps, q, qs);
    }
  }
}
