/** Four-eyes approvals as a protocol, run against a tamperer. */
module Approvals {
  import opened Wrappers
  import opened Utf16
  import opened Json
  import opened CanonicalJson
  import opened ApprovalPolicy

  // Deciding and executing read the request first and write under a guard later in the transaction, so they
  // interleave with each other, with cancellation, expiry and with a tamperer who rewrites the payload columns
  // (but not the stored fingerprint).  Requests do not share state; uniqueness across requests only ever
  // refuses a step.

  datatype Session = Session(userId: Text, companyId: Text, mfaSatisfied: bool, authenticationAt: int)

  datatype Status = Requested | Approved | Rejected | Cancelled | Expired | Executed

  /** One decision per approver: the table has a unique key on (request, approver). */
  datatype Request = Request(
    payload: Payload,
    fingerprint: Digest,
    status: Status,
    decisions: map<Text, bool>,
    executionKey: Option<Text>,
    executedAt: Option<int>)

  /** A deciding transaction between its read and its write. */
  datatype Deciding = Deciding(approverId: Text, approved: bool, newStatus: Status)

  /** An executing transaction that passed its checks, with what it read. */
  datatype Executing = Executing(actorId: Text, key: Text, now: int, payload: Payload, approvers: set<Text>)

  /** `original` is the payload as first requested; `executions` are the executors' successful runs. */
  datatype Cell = Cell(
    request: Option<Request>,
    original: Option<Payload>,
    deciding: map<nat, Deciding>,
    executing: map<nat, Executing>,
    executions: seq<Executing>)

  const EmptyCell := Cell(None, None, map[], map[], [])

  predicate StepUpSatisfied(s: Session, now: int) {
    s.mfaSatisfied && s.authenticationAt > 0 && s.authenticationAt <= now && now - s.authenticationAt <= 10 * 60_000
  }

  datatype Step =
    | RequestApproval(session: Session, asked: Payload, confirmation: Text, now: int, unique: bool)
    | DecideRead(tx: nat, session: Session, approved: bool, authorized: bool, now: int)
    | DecideWrite(tx: nat)
    | Cancel(session: Session)
    | Expire(now: int)
    | ExecuteRead(tx: nat, session: Session, key: Text, authorized: bool, expectedAction: Text, currentVersion: Option<int>, now: int)
    | ExecuteClaim(tx: nat, unique: bool, executorSucceeds: bool)
    | Tamper(payload: Payload)

  // ----- requesting -----

  predicate ValidValue(v: Value) {
    v.Str? ==> |v.s| <= 250
  }

  /** The payload that is stored: the requester is the session's user, and the expiry follows the policy. */
  function Stamped(session: Session, asked: Payload, policy: Policy, now: int): Payload {
    asked.(requesterId := session.userId, expiresAt := now + policy.ttlSeconds * 1000)
  }

  function Admitted(session: Session, asked: Payload, confirmation: Text, now: int): Option<Request> {
    var policy := GetPolicy(asked.actionType);
    if policy.None? || policy.value.scope != asked.scope then None
    else if !StepUpSatisfied(session, now) || confirmation != policy.value.confirmationPhrase then None
    else if asked.scope == Organization && asked.companyId != Some(session.companyId) then None
    else if asked.resourceId.Some? && |asked.resourceId.value| > 200 then None
    else if asked.expectedVersion.Some? && asked.expectedVersion.value < 0 then None
    else
      var parameters := SafeParameters(asked.safeParameters);
      if parameters.None? || |parameters.value| > |policy.value.safeParameterKeys| ||
         exists f :: f in parameters.value && !ValidValue(f.value) then None
      else
        var payload := Stamped(session, asked, policy.value, now);
        match Fingerprint(payload, parameters.value)
        case Err(_) => None
        case Ok(digest) => Some(Request(payload, digest, Requested, map[], None, None))
  }

  /** `unique` is whether the fingerprint and the id are new to the table. */
  function AfterRequest(c: Cell, session: Session, asked: Payload, confirmation: Text, now: int, unique: bool): Cell {
    if c.request.Some? || !unique || !DistinctKeys(asked.safeParameters) then c
    else
      match Admitted(session, asked, confirmation, now)
      case None => c
      case Some(r) => c.(request := Some(r), original := Some(r.payload))
  }

  // ----- deciding -----

  function Approvers(decisions: map<Text, bool>): set<Text> {
    set who | who in decisions && decisions[who]
  }

  predicate InScope(r: Request, session: Session) {
    r.payload.scope == Organization ==> r.payload.companyId == Some(session.companyId)
  }

  function AfterDecideRead(c: Cell, tx: nat, session: Session, approved: bool, authorized: bool, now: int): Cell {
    if c.request.None? || !StepUpSatisfied(session, now) || !authorized then c
    else
      var r := c.request.value;
      var policy := GetPolicy(r.payload.actionType);
      if !InScope(r, session) || r.payload.requesterId == session.userId || r.status != Requested ||
         r.payload.expiresAt <= now || policy.None? then c
      else
        var approvedCount := |Approvers(r.decisions)| + if approved then 1 else 0;
        var status := if !approved then Rejected
                      else if approvedCount >= policy.value.minimumApprovals then Approved else Requested;
        c.(deciding := c.deciding[tx := Deciding(session.userId, approved, status)])
  }

  function AfterDecideWrite(c: Cell, tx: nat): Cell {
    if tx !in c.deciding then c
    else
      var d := c.deciding[tx];
      var done := c.(deciding := c.deciding - {tx});
      if c.request.None? || d.approverId in c.request.value.decisions || c.request.value.status != Requested then done
      else
        var r := c.request.value;
        done.(request := Some(r.(decisions := r.decisions[d.approverId := d.approved], status := d.newStatus)))
  }

  // ----- cancelling, expiring, tampering -----

  function AfterCancel(c: Cell, session: Session): Cell {
    if c.request.Some? && c.request.value.payload.requesterId == session.userId && c.request.value.status == Requested
    then c.(request := Some(c.request.value.(status := Cancelled)))
    else c
  }

  /** The sweep, and the checks at the start of deciding and executing. */
  function AfterExpire(c: Cell, now: int): Cell {
    if c.request.Some? && c.request.value.status in {Requested, Approved} && c.request.value.payload.expiresAt <= now
    then c.(request := Some(c.request.value.(status := Expired)))
    else c
  }

  function AfterTamper(c: Cell, payload: Payload): Cell {
    if c.request.None? || !DistinctKeys(payload.safeParameters) then c
    else c.(request := Some(c.request.value.(payload := payload)))
  }

  // ----- executing -----

  function AfterExecuteRead(c: Cell, tx: nat, session: Session, key: Text, authorized: bool, expectedAction: Text,
                            currentVersion: Option<int>, now: int): Cell {
    if c.request.None? || !StepUpSatisfied(session, now) || !authorized then c
    else
      var r := c.request.value;
      var p := r.payload;
      var policy := GetPolicy(p.actionType);
      var approvers := Approvers(r.decisions) - {p.requesterId};
      var parameters := SafeParameters(p.safeParameters);
      if p.actionType != expectedAction || !InScope(r, session) || p.requesterId != session.userId ||
         r.status != Approved || p.expiresAt <= now then c
      else if policy.None? || |approvers| < policy.value.minimumApprovals then c
      else if p.expectedVersion.Some? && p.expectedVersion != currentVersion then c
      else if parameters.None? || Fingerprint(p, parameters.value) != Ok(r.fingerprint) then c
      else c.(executing := c.executing[tx := Executing(session.userId, key, now, p, approvers)])
  }

  /** The claim and the executor share one transaction: if either fails, nothing has happened. */
  function AfterExecuteClaim(c: Cell, tx: nat, unique: bool, executorSucceeds: bool): Cell {
    if tx !in c.executing then c
    else
      var e := c.executing[tx];
      var done := c.(executing := c.executing - {tx});
      if c.request.None? || c.request.value.status != Approved || c.request.value.executionKey.Some? || !unique || !executorSucceeds
      then done
      else done.(request := Some(c.request.value.(status := Executed, executedAt := Some(e.now), executionKey := Some(e.key))),
                 executions := c.executions + [e])
  }

  function Next(c: Cell, step: Step): Cell {
    match step
    case RequestApproval(session, asked, confirmation, now, unique) => AfterRequest(c, session, asked, confirmation, now, unique)
    case DecideRead(tx, session, approved, authorized, now) => AfterDecideRead(c, tx, session, approved, authorized, now)
    case DecideWrite(tx) => AfterDecideWrite(c, tx)
    case Cancel(session) => AfterCancel(c, session)
    case Expire(now) => AfterExpire(c, now)
    case ExecuteRead(tx, session, key, authorized, action, version, now) =>
      AfterExecuteRead(c, tx, session, key, authorized, action, version, now)
    case ExecuteClaim(tx, unique, succeeds) => AfterExecuteClaim(c, tx, unique, succeeds)
    case Tamper(payload) => AfterTamper(c, payload)
  }

  function Execute(c: Cell, steps: seq<Step>): Cell
    decreases |steps|
  {
    if steps == [] then c else Execute(Next(c, steps[0]), steps[1..])
  }

  // ----- the invariant -----

  /** What an executor runs on: the original payload, by its requester, in time, with enough other approvers. */
  predicate Legitimate(o: Payload, decisions: map<Text, bool>, e: Executing) {
    SamePayload(e.payload, o) && e.actorId == o.requesterId && e.now < o.expiresAt &&
    GetPolicy(o.actionType).Some? && |e.approvers| >= GetPolicy(o.actionType).value.minimumApprovals &&
    o.requesterId !in e.approvers && e.approvers <= Approvers(decisions)
  }

  predicate Consistent(r: Request, executions: seq<Executing>) {
    if r.status == Executed then
      |executions| == 1 && r.executionKey == Some(executions[0].key) && r.executedAt == Some(executions[0].now)
    else executions == [] && r.executionKey.None? && r.executedAt.None?
  }

  predicate Inv(c: Cell) {
    if c.request.None? then c == EmptyCell
    else
      var r := c.request.value;
      c.original.Some? &&
      var o := c.original.value;
      Usable(o) && Fingerprint(o, o.safeParameters.fields) == Ok(r.fingerprint) && DistinctKeys(r.payload.safeParameters) &&
      Consistent(r, c.executions) &&
      (forall tx :: tx in c.executing ==> Legitimate(o, r.decisions, c.executing[tx])) &&
      (forall i :: 0 <= i < |c.executions| ==> Legitimate(o, r.decisions, c.executions[i]))
  }

  /** A decision never writes EXECUTED. */
  predicate DecidingOk(c: Cell) {
    forall tx :: tx in c.deciding ==> c.deciding[tx].newStatus in {Requested, Approved, Rejected}
  }

  lemma RequestKeeps(c: Cell, session: Session, asked: Payload, confirmation: Text, now: int, unique: bool)
    requires Inv(c)
    ensures Inv(AfterRequest(c, session, asked, confirmation, now, unique))
  {
    var d := AfterRequest(c, session, asked, confirmation, now, unique);
    if d != c {
      assert d.request == Admitted(session, asked, confirmation, now);
      assert d.original.value.safeParameters == asked.safeParameters;
    }
  }

  lemma MoreDecisions(o: Payload, decisions: map<Text, bool>, who: Text, approved: bool, e: Executing)
    requires Legitimate(o, decisions, e) && who !in decisions
    ensures Legitimate(o, decisions[who := approved], e)
  {
    assert Approvers(decisions) <= Approvers(decisions[who := approved]);
  }

  lemma DecideWriteKeeps(c: Cell, tx: nat)
    requires Inv(c) && DecidingOk(c)
    ensures Inv(AfterDecideWrite(c, tx))
  {
    if tx in c.deciding && c.request.Some? {
      var d, r := c.deciding[tx], c.request.value;
      if d.approverId !in r.decisions && r.status == Requested {
        var after := AfterDecideWrite(c, tx);
        forall t | t in c.executing
          ensures Legitimate(c.original.value, after.request.value.decisions, c.executing[t])
        {
          MoreDecisions(c.original.value, r.decisions, d.approverId, d.approved, c.executing[t]);
        }
      }
    }
  }

  lemma ExecuteReadKeeps(c: Cell, tx: nat, session: Session, key: Text, authorized: bool, action: Text, version: Option<int>, now: int)
    requires Inv(c)
    ensures Inv(AfterExecuteRead(c, tx, session, key, authorized, action, version, now))
  {
    var d := AfterExecuteRead(c, tx, session, key, authorized, action, version, now);
    if d != c {
      var r, o := c.request.value, c.original.value;
      var e := d.executing[tx];
      assert Usable(r.payload);
      FingerprintIff(r.payload, o);
      assert Legitimate(o, r.decisions, e);
    }
  }

  lemma ExecuteClaimKeeps(c: Cell, tx: nat, unique: bool, succeeds: bool)
    requires Inv(c)
    ensures Inv(AfterExecuteClaim(c, tx, unique, succeeds))
  {
  }

  lemma DecideReadKeeps(c: Cell, tx: nat, session: Session, approved: bool, authorized: bool, now: int)
    requires Inv(c)
    ensures Inv(AfterDecideRead(c, tx, session, approved, authorized, now))
  {
  }

  lemma CancelKeeps(c: Cell, session: Session)
    requires Inv(c)
    ensures Inv(AfterCancel(c, session))
  {
  }

  lemma ExpireKeeps(c: Cell, now: int)
    requires Inv(c)
    ensures Inv(AfterExpire(c, now))
  {
  }

  lemma TamperKeeps(c: Cell, payload: Payload)
    requires Inv(c)
    ensures Inv(AfterTamper(c, payload))
  {
  }

  lemma DecidingStaysOk(c: Cell, step: Step)
    requires DecidingOk(c)
    ensures DecidingOk(Next(c, step))
  {
  }

  lemma StepKeeps(c: Cell, step: Step)
    requires Inv(c) && DecidingOk(c)
    ensures Inv(Next(c, step))
  {
    if step.RequestApproval? {
      RequestKeeps(c, step.session, step.asked, step.confirmation, step.now, step.unique);
    } else if step.DecideRead? {
      DecideReadKeeps(c, step.tx, step.session, step.approved, step.authorized, step.now);
    } else if step.DecideWrite? {
      DecideWriteKeeps(c, step.tx);
    } else if step.ExecuteRead? {
      ExecuteReadKeeps(c, step.tx, step.session, step.key, step.authorized, step.expectedAction, step.currentVersion, step.now);
    } else if step.ExecuteClaim? {
      ExecuteClaimKeeps(c, step.tx, step.unique, step.executorSucceeds);
    } else if step.Tamper? {
      TamperKeeps(c, step.payload);
    } else if step.Cancel? {
      CancelKeeps(c, step.session);
    } else {
      ExpireKeeps(c, step.now);
    }
  }

  lemma {:induction false} RunKeeps(c: Cell, steps: seq<Step>)
    requires Inv(c) && DecidingOk(c)
    ensures Inv(Execute(c, steps)) && DecidingOk(Execute(c, steps))
    decreases |steps|
  {
    if steps != [] {
      StepKeeps(c, steps[0]);
      DecidingStaysOk(c, steps[0]);
      RunKeeps(Next(c, steps[0]), steps[1..]);
    }
  }

  // ----- the results -----

  /**
   * In every run, tampering included: an EXECUTED request was executed exactly once, by the user who
   * requested it, before it expired, with at least the required number of distinct approvers other
   * than that user, and the executor was given the payload as first requested.
   */
  lemma ExecutedMeansApproved(steps: seq<Step>)
    ensures var c := Execute(EmptyCell, steps);
            c.request.Some? && c.request.value.status == Executed ==>
              c.original.Some? && |c.executions| == 1 &&
              Legitimate(c.original.value, c.request.value.decisions, c.executions[0]) &&
              c.request.value.executionKey == Some(c.executions[0].key) && c.request.value.executedAt == Some(c.executions[0].now)
  {
    RunKeeps(EmptyCell, steps);
  }

  /** And a request that is not EXECUTED was never executed. */
  lemma NotExecutedMeansNoRun(steps: seq<Step>)
    ensures var c := Execute(EmptyCell, steps);
            c.request.Some? && c.request.value.status != Executed ==>
              c.executions == [] && c.request.value.executionKey.None? && c.request.value.executedAt.None?
  {
    RunKeeps(EmptyCell, steps);
  }

  /** Final statuses never change. */
  predicate Final(s: Status) {
    s in {Rejected, Cancelled, Expired, Executed}
  }

  lemma {:induction false} FinalStays(c: Cell, steps: seq<Step>)
    requires c.request.Some? && Final(c.request.value.status)
    ensures Execute(c, steps).request.Some? && Execute(c, steps).request.value.status == c.request.value.status
    ensures Execute(c, steps).executions == c.executions
    decreases |steps|
  {
    if steps != [] {
      FinalStays(Next(c, steps[0]), steps[1..]);
    }
  }

  // ----- what the invariant report counts -----

  /** Tampering that leaves the requester column alone. */
  predicate KeepsRequester(step: Step, requesterId: Text) {
    step.Tamper? ==> step.payload.requesterId == requesterId
  }

  predicate NoSelfDecision(c: Cell, who: Text) {
    (c.request.Some? ==> c.request.value.payload.requesterId == who && who !in c.request.value.decisions) &&
    (c.request.None? ==> c.deciding == map[]) &&
    forall tx :: tx in c.deciding ==> c.deciding[tx].approverId != who
  }

  lemma {:induction false} NobodyDecidesOwn(c: Cell, steps: seq<Step>, who: Text)
    requires c.request.Some? && NoSelfDecision(c, who)
    requires forall i :: 0 <= i < |steps| ==> KeepsRequester(steps[i], who)
    ensures Execute(c, steps).request.Some? && NoSelfDecision(Execute(c, steps), who)
    decreases |steps|
  {
    if steps != [] {
      assert KeepsRequester(steps[0], who);
      assert forall i :: 0 <= i < |steps| - 1 ==> steps[1..][i] == steps[i + 1];
      NobodyDecidesOwn(Next(c, steps[0]), steps[1..], who);
    }
  }

  /** An approved decision by the request's own requester. */
  predicate SelfApproved(r: Request) {
    r.payload.requesterId in r.decisions && r.decisions[r.payload.requesterId]
  }

  /** EXECUTED without a key or a time. */
  predicate MalformedExecution(r: Request) {
    r.status == Executed && (r.executionKey.None? || r.executedAt.None?)
  }

  lemma AdmittedIsFresh(session: Session, asked: Payload, confirmation: Text, now: int)
    ensures var r := Admitted(session, asked, confirmation, now);
            r.Some? ==> r.value.payload.requesterId == session.userId && r.value.decisions == map[]
  {
  }

  lemma MadeIsClean(session: Session, asked: Payload, confirmation: Text, now: int)
    ensures var made := AfterRequest(EmptyCell, session, asked, confirmation, now, true);
            made.request.Some? ==> Inv(made) && DecidingOk(made) && NoSelfDecision(made, session.userId)
  {
    RequestKeeps(EmptyCell, session, asked, confirmation, now, true);
    AdmittedIsFresh(session, asked, confirmation, now);
  }

  lemma CountsNothingFrom(made: Cell, steps: seq<Step>, who: Text)
    requires Inv(made) && DecidingOk(made) && NoSelfDecision(made, who) && made.request.Some?
    requires forall i :: 0 <= i < |steps| ==> KeepsRequester(steps[i], who)
    ensures var c := Execute(made, steps);
            c.request.Some? && !MalformedExecution(c.request.value) && !SelfApproved(c.request.value)
  {
    RunKeeps(made, steps);
    NobodyDecidesOwn(made, steps, who);
  }

  /**
   * From the moment a request is made: the invariant report never counts it as a malformed execution,
   * and, while its requester column is left alone, never as self-approved.
   */
  lemma ReportCountsNothing(session: Session, asked: Payload, confirmation: Text, now: int, steps: seq<Step>)
    requires forall i :: 0 <= i < |steps| ==> KeepsRequester(steps[i], session.userId)
    ensures var made := AfterRequest(EmptyCell, session, asked, confirmation, now, true);
            made.request.Some? ==>
              var c := Execute(made, steps);
              c.request.Some? && !MalformedExecution(c.request.value) && !SelfApproved(c.request.value)
  {
    var made := AfterRequest(EmptyCell, session, asked, confirmation, now, true);
    if made.request.Some? {
      MadeIsClean(session, asked, confirmation, now);
      CountsNothingFrom(made, steps, session.userId);
    }
  }
}
