/** Whole runs of an approval: what its statuses say about the decisions, where they come from, and when a run succeeds. */
module ApprovalRuns {
  import opened Wrappers
  import opened Utf16
  import opened Json
  import opened CanonicalJson
  import opened ApprovalPolicy
  import opened Approvals

  // ----- one decision decides -----

  /** The status and the stored decisions say the same. */
  predicate DecisionsFit(r: Request) {
    && (r.status in {Requested, Cancelled} ==> r.decisions == map[])
    && (r.status == Rejected ==> exists who :: who in r.decisions && r.decisions == map[who := false])
    && (r.status in {Approved, Executed} ==> exists who :: who in r.decisions && r.decisions == map[who := true])
    && (r.status == Expired ==> r.decisions == map[] || exists who :: who in r.decisions && r.decisions == map[who := true])
  }

  predicate DecisionsInv(c: Cell) {
    (c.request.Some? ==> DecisionsFit(c.request.value)) &&
    forall tx :: tx in c.deciding ==> c.deciding[tx].newStatus == if c.deciding[tx].approved then Approved else Rejected
  }

  lemma DecideWriteFits(c: Cell, tx: nat)
    requires DecisionsInv(c)
    ensures DecisionsInv(AfterDecideWrite(c, tx))
  {
    if tx in c.deciding && c.request.Some? && c.request.value.status == Requested {
      var who := c.deciding[tx].approverId;
      assert who in c.request.value.decisions[who := c.deciding[tx].approved];
    }
  }

  lemma StepFits(c: Cell, step: Step)
    requires DecisionsInv(c)
    ensures DecisionsInv(Next(c, step))
  {
    match step
    case DecideWrite(tx) => DecideWriteFits(c, tx);
    case _ =>
  }

  lemma {:induction false} RunFits(c: Cell, steps: seq<Step>)
    requires DecisionsInv(c)
    ensures DecisionsInv(Execute(c, steps))
    decreases |steps|
  {
    if steps != [] {
      StepFits(c, steps[0]);
      RunFits(Next(c, steps[0]), steps[1..]);
    }
  }

  /**
   * In every run, tampering included: a request is REJECTED if and only if a rejection is among its
   * decisions; once an approval is, it is APPROVED, EXECUTED or EXPIRED; and it is decided at most once.
   */
  lemma OneDecisionDecides(steps: seq<Step>)
    ensures var c := Execute(EmptyCell, steps);
            c.request.Some? ==>
              var r := c.request.value;
              |r.decisions| <= 1 &&
              (r.status == Rejected <==> exists who :: who in r.decisions && !r.decisions[who]) &&
              ((exists who :: who in r.decisions && r.decisions[who]) ==> r.status in {Approved, Executed, Expired}) &&
              (r.status in {Approved, Executed} ==> exists who :: who in r.decisions && r.decisions[who])
  {
    RunFits(EmptyCell, steps);
  }

  /** Only its requester withdraws a request, and only while it is undecided; time closes it while it is not final. */
  lemma CancelAndExpireIff(c: Cell, session: Session, now: int)
    requires c.request.Some?
    ensures var r, d := c.request.value, Next(c, Cancel(session));
            if r.status == Requested && session.userId == r.payload.requesterId
            then d == c.(request := Some(r.(status := Cancelled)))
            else d == c
    ensures var r, d := c.request.value, Next(c, Expire(now));
            if r.status in {Requested, Approved} && now >= r.payload.expiresAt
            then d == c.(request := Some(r.(status := Expired)))
            else d == c
  {
  }

  // ----- where everything comes from -----

  /** Signed in with a second factor within the last ten minutes. */
  predicate SteppedUp(s: Session, now: int) {
    s.mfaSatisfied && 0 < s.authenticationAt <= now <= s.authenticationAt + 600_000
  }

  /** Requests of an organization are the business of its own people. */
  predicate InCompany(o: Payload, s: Session) {
    o.scope == Organization ==> o.companyId == Some(s.companyId)
  }

  predicate NoTamper(steps: seq<Step>) {
    forall i :: 0 <= i < |steps| ==> !steps[i].Tamper?
  }

  predicate RequestedAt(steps: seq<Step>, i: nat, o: Payload) {
    i < |steps| && steps[i].RequestApproval? && SteppedUp(steps[i].session, steps[i].now) && InCompany(o, steps[i].session) &&
    o == steps[i].asked.(requesterId := steps[i].session.userId, expiresAt := steps[i].now + 600_000)
  }

  predicate DecidedAt(steps: seq<Step>, i: nat, o: Payload, who: Text, approved: bool) {
    i < |steps| && steps[i].DecideRead? && steps[i].session.userId == who && steps[i].approved == approved &&
      steps[i].authorized &&
    SteppedUp(steps[i].session, steps[i].now) &&
    (NoTamper(steps) ==> InCompany(o, steps[i].session) && who != o.requesterId && steps[i].now < o.expiresAt)
  }

  predicate AskedAt(steps: seq<Step>, i: nat, e: Executing) {
    i < |steps| && steps[i].ExecuteRead? && steps[i].session.userId == e.actorId && steps[i].authorized &&
    SteppedUp(steps[i].session, steps[i].now) && steps[i].now == e.now && steps[i].key == e.key &&
    steps[i].expectedAction == e.payload.actionType && InCompany(e.payload, steps[i].session) &&
    (e.payload.expectedVersion.Some? ==> steps[i].currentVersion == e.payload.expectedVersion)
  }

  ghost predicate Made(steps: seq<Step>, o: Payload) {
    exists i :: RequestedAt(steps, i, o)
  }

  ghost predicate Decision(steps: seq<Step>, o: Payload, who: Text, approved: bool) {
    exists i :: DecidedAt(steps, i, o, who, approved)
  }

  ghost predicate Asked(steps: seq<Step>, e: Executing) {
    exists i :: AskedAt(steps, i, e)
  }

  ghost predicate Traced(steps: seq<Step>, c: Cell) {
    if c.request.None? then c == EmptyCell
    else
      c.original.Some? &&
      var o, r := c.original.value, c.request.value;
      (NoTamper(steps) ==> r.payload == o) &&
      Made(steps, o) &&
      (forall who :: who in r.decisions ==> Decision(steps, o, who, r.decisions[who])) &&
      (forall tx :: tx in c.deciding ==> Decision(steps, o, c.deciding[tx].approverId, c.deciding[tx].approved)) &&
      (forall tx :: tx in c.executing ==> Asked(steps, c.executing[tx])) &&
      (forall k :: 0 <= k < |c.executions| ==> Asked(steps, c.executions[k]))
  }

  lemma StillDecided(steps: seq<Step>, last: Step, o: Payload, who: Text, approved: bool)
    requires Decision(steps, o, who, approved)
    ensures Decision(steps + [last], o, who, approved)
  {
    var i :| DecidedAt(steps, i, o, who, approved);
    assert NoTamper(steps + [last]) ==> NoTamper(steps) by {
      assert forall k :: 0 <= k < |steps| ==> (steps + [last])[k] == steps[k];
    }
    assert DecidedAt(steps + [last], i, o, who, approved);
  }

  lemma StillAsked(steps: seq<Step>, last: Step, e: Executing)
    requires Asked(steps, e)
    ensures Asked(steps + [last], e)
  {
    var i :| AskedAt(steps, i, e);
    assert AskedAt(steps + [last], i, e);
  }

  /** A longer run explains the same cell. */
  lemma StillTraced(steps: seq<Step>, last: Step, c: Cell)
    requires Traced(steps, c)
    ensures Traced(steps + [last], c)
  {
    if c.request.Some? {
      var o, r := c.original.value, c.request.value;
      assert NoTamper(steps + [last]) ==> NoTamper(steps) by {
        assert forall k :: 0 <= k < |steps| ==> (steps + [last])[k] == steps[k];
      }
      var i :| RequestedAt(steps, i, o);
      assert RequestedAt(steps + [last], i, o);
      forall who | who in r.decisions ensures Decision(steps + [last], o, who, r.decisions[who]) {
        StillDecided(steps, last, o, who, r.decisions[who]);
      }
      forall tx | tx in c.deciding ensures Decision(steps + [last], o, c.deciding[tx].approverId, c.deciding[tx].approved) {
        StillDecided(steps, last, o, c.deciding[tx].approverId, c.deciding[tx].approved);
      }
      forall tx | tx in c.executing ensures Asked(steps + [last], c.executing[tx]) {
        StillAsked(steps, last, c.executing[tx]);
      }
      forall k | 0 <= k < |c.executions| ensures Asked(steps + [last], c.executions[k]) {
        StillAsked(steps, last, c.executions[k]);
      }
    }
  }

  lemma RequestTraced(steps: seq<Step>, c: Cell, step: Step)
    requires Traced(steps + [step], c) && step.RequestApproval?
    ensures Traced(steps + [step], Next(c, step))
  {
    var d := Next(c, step);
    if d != c {
      assert d.request == Admitted(step.session, step.asked, step.confirmation, step.now);
      assert RequestedAt(steps + [step], |steps|, d.original.value);
    }
  }

  lemma DecideReadTraced(steps: seq<Step>, c: Cell, step: Step)
    requires Traced(steps + [step], c) && step.DecideRead?
    ensures Traced(steps + [step], Next(c, step))
  {
    var d := Next(c, step);
    if d != c {
      assert DecidedAt(steps + [step], |steps|, c.original.value, step.session.userId, step.approved);
    }
  }

  lemma NewExecuting(c: Cell, step: Step)
    requires step.ExecuteRead? && Next(c, step) != c
    ensures var e := Executing(step.session.userId, step.key, step.now, c.request.value.payload,
                               Approvers(c.request.value.decisions) - {c.request.value.payload.requesterId});
            c.request.Some? && Next(c, step) == c.(executing := c.executing[step.tx := e]) && AskedAt([step], 0, e)
  {
  }

  lemma ExecuteReadTraced(steps: seq<Step>, c: Cell, step: Step)
    requires Traced(steps + [step], c) && step.ExecuteRead?
    ensures Traced(steps + [step], Next(c, step))
  {
    if Next(c, step) != c {
      NewExecuting(c, step);
      assert AskedAt(steps + [step], |steps|, Next(c, step).executing[step.tx]);
    }
  }

  lemma OtherStepTraced(steps: seq<Step>, c: Cell, step: Step)
    requires Traced(steps + [step], c) && !(step.RequestApproval? || step.DecideRead? || step.ExecuteRead?)
    ensures Traced(steps + [step], Next(c, step))
  {
    if step.Tamper? {
      assert (steps + [step])[|steps|].Tamper?;
    }
  }

  lemma {:induction false} RunTraced(steps: seq<Step>)
    ensures Traced(steps, Execute(EmptyCell, steps))
  {
    if steps != [] {
      var before, last := steps[..|steps| - 1], steps[|steps| - 1];
      RunTraced(before);
      assert steps == before + [last];
      ExecuteLast(EmptyCell, before, last);
      var c := Execute(EmptyCell, before);
      StillTraced(before, last, c);
      if last.RequestApproval? {
        RequestTraced(before, c, last);
      } else if last.DecideRead? {
        DecideReadTraced(before, c, last);
      } else if last.ExecuteRead? {
        ExecuteReadTraced(before, c, last);
      } else {
        OtherStepTraced(before, c, last);
      }
    }
  }

  lemma {:induction false} ExecuteLast(c: Cell, steps: seq<Step>, last: Step)
    ensures Execute(c, steps + [last]) == Next(Execute(c, steps), last)
    decreases |steps|
  {
    if steps == [] {
      assert steps + [last] == [last] && [last][1..] == [];
    } else {
      ExecuteLast(Next(c, steps[0]), steps[1..], last);
      assert (steps + [last])[1..] == steps[1..] + [last];
    }
  }

  /**
   * In every run the request, each of its decisions and its execution were each made by a user who had
   * just signed in with a second factor, the last two under a permission; and, unless someone tampered,
   * those who decided belong to the request's organization, are not the requester, and were in time.
   */
  lemma ExecutedIsTraced(steps: seq<Step>)
    ensures var c := Execute(EmptyCell, steps);
            c.request.Some? ==>
              c.original.Some? &&
              var o, decisions := c.original.value, c.request.value.decisions;
              Made(steps, o) && (forall who :: who in decisions ==> Decision(steps, o, who, decisions[who])) &&
              forall k :: 0 <= k < |c.executions| ==> Asked(steps, c.executions[k])
  {
    RunTraced(steps);
  }

  // ----- when a run succeeds -----

  /** What a request needs: the known action in its scope, the phrase, and parameters of its policy's keys. */
  predicate MayRequest(s: Session, asked: Payload, phrase: Text, now: int) {
    SteppedUp(s, now) && GetPolicy(asked.actionType).Some? &&
    var policy := GetPolicy(asked.actionType).value;
    policy.scope == asked.scope && phrase == policy.confirmationPhrase &&
    (asked.scope == Organization ==> asked.companyId == Some(s.companyId) && s.companyId != []) &&
    (asked.resourceId.Some? ==> |asked.resourceId.value| <= 200) &&
    (asked.expectedVersion.Some? ==> asked.expectedVersion.value >= 0) &&
    asked.safeParameters.Obj? && |asked.safeParameters.fields| == |policy.safeParameterKeys| &&
    forall f :: f in asked.safeParameters.fields ==>
      f.key in policy.safeParameterKeys && IsScalar(f.value) && (f.value.Str? ==> |f.value.s| <= 250)
  }

  function StampedAt(s: Session, asked: Payload, now: int): Payload {
    asked.(requesterId := s.userId, expiresAt := now + 600_000)
  }

  /** An undecided request for o, with nothing under way. */
  predicate Fresh(c: Cell, o: Payload) {
    c.request.Some? && Usable(o) && c.original == Some(o) && c.deciding == map[] && c.executing == map[] && c.executions == [] &&
    Fingerprint(o, o.safeParameters.fields) == Ok(c.request.value.fingerprint) &&
    c.request.value == Request(o, c.request.value.fingerprint, Requested, map[], None, None)
  }

  lemma RequestIff(s: Session, asked: Payload, phrase: Text, now: int)
    requires DistinctKeys(asked.safeParameters)
    ensures var c := Next(EmptyCell, RequestApproval(s, asked, phrase, now, true));
            if MayRequest(s, asked, phrase, now) then Fresh(c, StampedAt(s, asked, now)) else c == EmptyCell
  {
    if GetPolicy(asked.actionType).Some? {
      assert Stamped(s, asked, GetPolicy(asked.actionType).value, now) == StampedAt(s, asked, now);
    }
  }

  predicate MayDecide(o: Payload, s: Session, permitted: bool, now: int) {
    SteppedUp(s, now) && permitted && InCompany(o, s) && s.userId != o.requesterId && now < o.expiresAt
  }

  function Decided(c: Cell, s: Session, approved: bool): Cell
    requires c.request.Some?
  {
    c.(request := Some(c.request.value.(decisions := map[s.userId := approved],
      status := if approved then Approved else Rejected)))
  }

  lemma DecideIff(c: Cell, o: Payload, tx: nat, s: Session, approved: bool, permitted: bool, now: int)
    requires Fresh(c, o) && GetPolicy(o.actionType).Some?
    ensures Next(Next(c, DecideRead(tx, s, approved, permitted, now)), DecideWrite(tx)) ==
            if MayDecide(o, s, permitted, now) then Decided(c, s, approved) else c
  {
    var read := Next(c, DecideRead(tx, s, approved, permitted, now));
    assert Approvers(map[]) == {};
    if MayDecide(o, s, permitted, now) {
      assert read == c.(deciding := map[tx := Deciding(s.userId, approved, if approved then Approved else Rejected)]);
      assert read.deciding - {tx} == map[];
    }
  }

  predicate MayExecute(o: Payload, s: Session, permitted: bool, action: Text, version: Option<int>, now: int) {
    SteppedUp(s, now) && permitted && InCompany(o, s) && s.userId == o.requesterId && now < o.expiresAt &&
      action == o.actionType &&
    (o.expectedVersion.Some? ==> version == o.expectedVersion)
  }

  lemma OneApprover(o: Payload, who: Text)
    requires who != o.requesterId
    ensures Approvers(map[who := true]) - {o.requesterId} == {who}
  {
    assert Approvers(map[who := true]) == {who};
  }

  /** What an executing transaction reads of an approved request. */
  lemma ExecuteReads(c: Cell, o: Payload, approver: Session, tx: nat, s: Session, key: Text, permitted: bool,
                     action: Text, version: Option<int>, now: int)
    requires Fresh(c, o) && GetPolicy(o.actionType).Some? && approver.userId != o.requesterId
    ensures var approved := Decided(c, approver, true);
            Next(approved, ExecuteRead(tx, s, key, permitted, action, version, now)) ==
              if MayExecute(o, s, permitted, action, version, now)
              then approved.(executing := map[tx := Executing(s.userId, key, now, o, {approver.userId})]) else approved
  {
    OneApprover(o, approver.userId);
  }

  lemma ExecuteClaims(approved: Cell, tx: nat, e: Executing, unique: bool, succeeds: bool)
    requires approved.request.Some? && approved.request.value.status == Approved && approved.request.value.executionKey.None?
    requires approved.executing == map[] && approved.executions == []
    ensures var d := Next(approved.(executing := map[tx := e]), ExecuteClaim(tx, unique, succeeds));
            if unique && succeeds
            then d.request.Some? && d.request.value.status == Executed && |d.executions| == 1
            else d == approved
  {
    assert map[tx := e] - {tx} == map[];
  }

  lemma ExecuteIff(c: Cell, o: Payload, approver: Session, tx: nat, s: Session, key: Text, permitted: bool,
                  action: Text, version: Option<int>,
                   now: int, unique: bool, succeeds: bool)
    requires Fresh(c, o) && GetPolicy(o.actionType).Some? && approver.userId != o.requesterId
    ensures var approved := Decided(c, approver, true);
            var d := Next(Next(approved, ExecuteRead(tx, s, key, permitted, action, version, now)),
                          ExecuteClaim(tx, unique, succeeds));
            if MayExecute(o, s, permitted, action, version, now) && unique && succeeds then
              d.request.Some? && d.request.value.status == Executed && |d.executions| == 1
            else d == approved
  {
    ExecuteReads(c, o, approver, tx, s, key, permitted, action, version, now);
    ExecuteClaims(Decided(c, approver, true), tx, Executing(s.userId, key, now, o, {approver.userId}), unique, succeeds);
  }

  lemma FiveSteps(c: Cell, s1: Step, s2: Step, s3: Step, s4: Step, s5: Step)
    ensures Execute(c, [s1, s2, s3, s4, s5]) == Next(Next(Next(Next(Next(c, s1), s2), s3), s4), s5)
  {
    assert [s1, s2, s3, s4, s5][1..] == [s2, s3, s4, s5] && [s2, s3, s4, s5][1..] == [s3, s4, s5];
    assert [s3, s4, s5][1..] == [s4, s5] && [s4, s5][1..] == [s5] && [s5][1..] == [];
    var d := Next(Next(c, s1), s2);
    assert Execute(d, [s3, s4, s5]) == Next(Next(Next(d, s3), s4), s5) by {
      var e := Next(Next(d, s3), s4);
      assert Execute(e, [s5]) == Next(e, s5);
    }
  }

  /**
   * Request, decision, execution, each by anybody at any time and with any arguments: the action is
   * carried out if and only if the request was admissible, somebody else of the organization approved it
   * in time, and the requester then executed it in time on the version it was asked for.
   */
  lemma FourEyesIff(requester: Session, asked: Payload, phrase: Text, t0: int, approver: Session, approved: bool,
                    permitted: bool, t1: int, executor: Session, key: Text, allowed: bool, action: Text,
                    version: Option<int>, t2: int, unique: bool, succeeds: bool)
    requires DistinctKeys(asked.safeParameters)
    ensures var o := StampedAt(requester, asked, t0);
            var c := Execute(EmptyCell, [RequestApproval(requester, asked, phrase, t0, true), DecideRead(0, approver,
              approved, permitted, t1),
                                         DecideWrite(0), ExecuteRead(0, executor, key, allowed, action, version, t2),
                                         ExecuteClaim(0, unique, succeeds)]);
            c.request.Some? && c.request.value.status == Executed <==>
              MayRequest(requester, asked, phrase, t0) && MayDecide(o, approver, permitted, t1) && approved &&
              MayExecute(o, executor, allowed, action, version, t2) && unique && succeeds
  {
    var o := StampedAt(requester, asked, t0);
    var c := Next(EmptyCell, RequestApproval(requester, asked, phrase, t0, true));
    FiveSteps(EmptyCell, RequestApproval(requester, asked, phrase, t0, true), DecideRead(0, approver, approved, permitted, t1),
              DecideWrite(0), ExecuteRead(0, executor, key, allowed, action, version, t2), ExecuteClaim(0, unique, succeeds));
    RequestIff(requester, asked, phrase, t0);
    if MayRequest(requester, asked, phrase, t0) {
      DecideIff(c, o, 0, approver, approved, permitted, t1);
      if MayDecide(o, approver, permitted, t1) && approved {
        ExecuteIff(c, o, approver, 0, executor, key, allowed, action, version, t2, unique, succeeds);
      }
    }
  }
}
