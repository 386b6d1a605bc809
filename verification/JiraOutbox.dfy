/** The outbound Jira outbox: two tables that every transaction keeps in step. */
module JiraOutbox {
  import opened Wrappers
  import opened Powers

  // Operations are claimed in batches under a lease token, and completed, failed, retried or buried one by
  // one.  Every transaction writes the operation and the row it is about: the request's integration status, or
  // the message's delivery status.  Transactions of any number of workers interleave; a step that is refused
  // changes nothing.

  datatype OperationType = CreateIssue | AddComment

  datatype OperationStatus = Pending | Processing | Completed | Failed | DeadLetter

  datatype Lease = Lease(token: nat, until: int)

  /** `row` is the request of a CREATE_ISSUE and the local comment of an ADD_COMMENT. */
  datatype Operation = Operation(
    kind: OperationType,
    row: string,
    status: OperationStatus,
    attempts: nat,
    maxAttempts: nat,
    nextAttemptAt: int,
    lease: Option<Lease>,
    failure: Option<string>)

  datatype Mirror = MirrorPending | MirrorProcessing | MirrorCreated | MirrorSent | MirrorFailed | MirrorDeadLetter

  type Row = (OperationType, string)

  /** What a worker was handed when it claimed an operation; it is known by the operation and its token. */
  datatype Record = Record(attempts: nat, maxAttempts: nat)

  /** `reported` holds the requests whose issue Jira reported deleted since the operation last wrote them. */
  datatype State = State(
    ops: map<string, Operation>,
    mirror: map<Row, Mirror>,
    records: map<(string, nat), Record>,
    nextToken: nat,
    reported: set<string>)

  const LEASE_EXHAUSTED := "JIRA_LEASE_EXHAUSTED"

  datatype Step =
    | Enqueue(id: string, kind: OperationType, row: string, maxAttempts: nat)
    | Claim(ids: set<string>, now: int, leaseMs: nat)
    | Complete(id: string, token: nat)
    | Fail(id: string, token: nat, code: string, retryable: bool, now: int)
    | Retry(id: string, now: int)
    | MoveToDeadLetter(id: string, now: int)
    | IssueDeleted(requestId: string)

  function RowOf(op: Operation): Row {
    (op.kind, op.row)
  }

  /** `None` is the thrown JIRA_ATTEMPT_INVALID. */
  function BackoffMs(attempt: int): Option<nat> {
    if attempt < 1 || attempt > 20 then None else Some(DoublingDelayMs(attempt))
  }

  // ----- claiming a batch -----

  predicate Exhausted(op: Operation, now: int) {
    op.status == Processing && op.lease.Some? && op.lease.value.until <= now && op.attempts >= op.maxAttempts
  }

  predicate Claimable(op: Operation, now: int) {
    op.attempts < op.maxAttempts &&
    ((op.status in {Pending, Failed} && op.nextAttemptAt <= now) ||
     (op.status == Processing && op.lease.Some? && op.lease.value.until <= now))
  }

  function Bury(op: Operation, now: int): Operation {
    if Exhausted(op, now) then op.(status := DeadLetter, lease := None, failure := Some(LEASE_EXHAUSTED)) else op
  }

  function Claimed(op: Operation, token: nat, now: int, leaseMs: nat): Operation {
    op.(status := Processing, attempts := op.attempts + 1, lease := Some(Lease(token, now + leaseMs)), failure := None)
  }

  /** SKIP LOCKED and LIMIT leave it open which of the claimable operations a batch takes. */
  function OpAfterClaim(op: Operation, wanted: bool, token: nat, now: int, leaseMs: nat): Operation {
    if wanted && Claimable(op, now) then Claimed(op, token, now, leaseMs) else Bury(op, now)
  }

  predicate RowExhausted(ops: map<string, Operation>, row: Row, now: int) {
    exists id :: id in ops && RowOf(ops[id]) == row && Exhausted(ops[id], now)
  }

  predicate RowBuried(ops: map<string, Operation>, row: Row) {
    exists id :: id in ops && RowOf(ops[id]) == row && ops[id].status == DeadLetter && ops[id].failure == Some(LEASE_EXHAUSTED)
  }

  predicate RowHasToken(ops: map<string, Operation>, row: Row, token: nat) {
    exists id :: id in ops && RowOf(ops[id]) == row && ops[id].lease.Some? && ops[id].lease.value.token == token
  }

  /** Requests are buried with their operation; messages with any operation that was ever buried. */
  function MirrorAfterClaim(earlier: map<string, Operation>, ops: map<string, Operation>, row: Row, was: Mirror, token: nat, now: int): Mirror {
    if RowHasToken(ops, row, token) then MirrorProcessing
    else if row.0 == CreateIssue && RowExhausted(earlier, row, now) then MirrorDeadLetter
    else if row.0 == AddComment && RowBuried(ops, row) then MirrorDeadLetter
    else was
  }

  /** RETURNING: the records of the operations a batch takes. */
  function Handed(s: State, ids: set<string>, now: int): map<(string, nat), Record> {
    var keys := set id | id in ids && id in s.ops && Claimable(s.ops[id], now) :: (id, s.nextToken);
    map key: (string, nat) | key in keys :: Record(s.ops[key.0].attempts + 1, s.ops[key.0].maxAttempts)
  }

  function AfterClaim(s: State, ids: set<string>, now: int, leaseMs: nat): State {
    var ops := map id | id in s.ops :: OpAfterClaim(s.ops[id], id in ids, s.nextToken, now, leaseMs);
    State(ops,
          map row | row in s.mirror :: MirrorAfterClaim(s.ops, ops, row, s.mirror[row], s.nextToken, now),
          s.records + Handed(s, ids, now),
          s.nextToken + 1,
          set id | id in s.reported &&
                   !RowHasToken(ops, (CreateIssue, id), s.nextToken) && !RowExhausted(s.ops, (CreateIssue, id), now))
  }

  // ----- one operation at a time -----

  /** The transaction writes the operation and its row together. */
  function Write(s: State, id: string, op: Operation, m: Mirror): State {
    s.(ops := s.ops[id := op], mirror := s.mirror[RowOf(op) := m],
       reported := if op.kind == CreateIssue then s.reported - {op.row} else s.reported)
  }

  predicate Guard(s: State, id: string, token: nat) {
    id in s.ops && s.ops[id].status == Processing && s.ops[id].lease.Some? && s.ops[id].lease.value.token == token
  }

  function AfterEnqueue(s: State, id: string, kind: OperationType, row: string, maxAttempts: nat): State {
    if id in s.ops || (kind, row) in s.mirror then s
    else Write(s, id, Operation(kind, row, Pending, 0, maxAttempts, 0, None, None), MirrorPending)
  }

  function AfterComplete(s: State, id: string, token: nat): State {
    if (id, token) in s.records && Guard(s, id, token) then
      Write(s, id, s.ops[id].(status := Completed, lease := None, failure := None),
            if s.ops[id].kind == CreateIssue then MirrorCreated else MirrorSent)
    else s
  }

  predicate Buries(r: Record, retryable: bool) {
    !retryable || r.attempts >= r.maxAttempts
  }

  /** The back-off is computed, and may throw, before the guard is looked at. */
  function AfterFail(s: State, id: string, token: nat, code: string, retryable: bool, now: int): State {
    if (id, token) !in s.records then s
    else
      var r := s.records[(id, token)];
      var delay := BackoffMs(r.attempts);
      if !Buries(r, retryable) && delay.None? then s
      else if !Guard(s, id, token) then s
      else if Buries(r, retryable) then
        Write(s, id, s.ops[id].(status := DeadLetter, nextAttemptAt := now, lease := None, failure := Some(code)), MirrorDeadLetter)
      else
        Write(s, id, s.ops[id].(status := Failed, nextAttemptAt := now + delay.value, lease := None, failure := Some(code)), MirrorFailed)
  }

  function AfterRetry(s: State, id: string, now: int): State {
    if id in s.ops && s.ops[id].status == DeadLetter then
      Write(s, id, s.ops[id].(status := Pending, attempts := 0, nextAttemptAt := now, lease := None, failure := None), MirrorPending)
    else s
  }

  function AfterMove(s: State, id: string, now: int): State {
    if id in s.ops && s.ops[id].status == Failed then
      Write(s, id, s.ops[id].(status := DeadLetter, nextAttemptAt := now, lease := None,
                              failure := Some(s.ops[id].failure.GetOr("JIRA_MANUAL_DEAD_LETTER"))), MirrorDeadLetter)
    else s
  }

  /** The inbound side marks the request, whatever its operation is doing. */
  function AfterIssueDeleted(s: State, requestId: string): State {
    if (CreateIssue, requestId) in s.mirror then
      s.(mirror := s.mirror[(CreateIssue, requestId) := MirrorFailed], reported := s.reported + {requestId})
    else s
  }

  function Next(s: State, step: Step): State {
    match step
    case Enqueue(id, kind, row, maxAttempts) => AfterEnqueue(s, id, kind, row, maxAttempts)
    case Claim(ids, now, leaseMs) => AfterClaim(s, ids, now, leaseMs)
    case Complete(id, token) => AfterComplete(s, id, token)
    case Fail(id, token, code, retryable, now) => AfterFail(s, id, token, code, retryable, now)
    case Retry(id, now) => AfterRetry(s, id, now)
    case MoveToDeadLetter(id, now) => AfterMove(s, id, now)
    case IssueDeleted(requestId) => AfterIssueDeleted(s, requestId)
  }

  const Initial := State(map[], map[], map[], 0, {})

  function Execute(s: State, steps: seq<Step>): State
    decreases |steps|
  {
    if steps == [] then s else Execute(Next(s, steps[0]), steps[1..])
  }

  // ----- the invariant -----

  function MirrorOf(op: Operation): Mirror {
    match op.status
    case Pending => MirrorPending
    case Processing => MirrorProcessing
    case Completed => if op.kind == CreateIssue then MirrorCreated else MirrorSent
    case Failed => MirrorFailed
    case DeadLetter => MirrorDeadLetter
  }

  /** The row shows the operation's status, unless Jira has since reported the issue deleted. */
  predicate Mirrored(s: State, op: Operation) {
    RowOf(op) in s.mirror &&
    s.mirror[RowOf(op)] == if op.kind == CreateIssue && op.row in s.reported then MirrorFailed else MirrorOf(op)
  }

  predicate OperationOk(s: State, id: string, op: Operation) {
    op.attempts <= op.maxAttempts && (op.status == Processing <==> op.lease.Some?) &&
    (op.lease.Some? ==>
       var key := (id, op.lease.value.token);
       op.lease.value.token < s.nextToken && key in s.records && s.records[key] == Record(op.attempts, op.maxAttempts))
  }

  predicate RecordOk(s: State, key: (string, nat)) {
    key in s.records ==>
      key.0 in s.ops && key.1 < s.nextToken && 1 <= s.records[key].attempts <= s.records[key].maxAttempts &&
      s.records[key].maxAttempts == s.ops[key.0].maxAttempts
  }

  /** No two operations are about the same row. */
  predicate RowsDistinct(ops: map<string, Operation>) {
    forall a, b :: a in ops && b in ops && RowOf(ops[a]) == RowOf(ops[b]) ==> a == b
  }

  predicate Inv(s: State) {
    RowsDistinct(s.ops) &&
    (forall id :: id in s.ops ==> Mirrored(s, s.ops[id]) && OperationOk(s, id, s.ops[id])) &&
    (forall key :: key in s.records ==> RecordOk(s, key))
  }

  // ----- one-operation transactions keep it -----

  lemma WriteKeeps(s: State, id: string, op: Operation, m: Mirror)
    requires Inv(s) && id in s.ops && RowOf(op) == RowOf(s.ops[id]) && m == MirrorOf(op)
    requires op.maxAttempts == s.ops[id].maxAttempts && op.attempts <= op.maxAttempts && op.status != Processing && op.lease.None?
    ensures Inv(Write(s, id, op, m))
  {
    var t := Write(s, id, op, m);
    forall k | k in t.ops
      ensures Mirrored(t, t.ops[k]) && OperationOk(t, k, t.ops[k])
    {
      if k != id {
        assert Mirrored(s, s.ops[k]) && OperationOk(s, k, s.ops[k]);
      }
    }
    forall key | key in t.records
      ensures RecordOk(t, key)
    {
      assert RecordOk(s, key);
    }
  }

  lemma EnqueueKeeps(s: State, id: string, kind: OperationType, row: string, maxAttempts: nat)
    requires Inv(s)
    ensures Inv(AfterEnqueue(s, id, kind, row, maxAttempts))
  {
    var t := AfterEnqueue(s, id, kind, row, maxAttempts);
    if t != s {
      forall k | k in t.ops
        ensures Mirrored(t, t.ops[k]) && OperationOk(t, k, t.ops[k])
      {
        if k != id {
          assert Mirrored(s, s.ops[k]) && OperationOk(s, k, s.ops[k]);
        }
      }
      forall a | a in s.ops
        ensures RowOf(s.ops[a]) != (kind, row)
      {
        assert Mirrored(s, s.ops[a]);
      }
      forall key | key in t.records
        ensures RecordOk(t, key)
      {
        assert RecordOk(s, key);
      }
    }
  }

  lemma IssueDeletedKeeps(s: State, requestId: string)
    requires Inv(s)
    ensures Inv(AfterIssueDeleted(s, requestId))
  {
    var t := AfterIssueDeleted(s, requestId);
    forall k | k in t.ops
      ensures Mirrored(t, t.ops[k]) && OperationOk(t, k, t.ops[k])
    {
      assert Mirrored(s, s.ops[k]) && OperationOk(s, k, s.ops[k]);
    }
    forall key | key in t.records
      ensures RecordOk(t, key)
    {
      assert RecordOk(s, key);
    }
  }

  // ----- a batch claim keeps it -----

  /** Rows are distinct, so what some operation on the row does is what this one does. */
  lemma RowIsOwn(s: State, ids: set<string>, now: int, leaseMs: nat, id: string)
    requires Inv(s) && id in s.ops
    ensures var row := RowOf(s.ops[id]);
            var t := AfterClaim(s, ids, now, leaseMs);
            (RowExhausted(s.ops, row, now) <==> Exhausted(s.ops[id], now)) &&
            (RowHasToken(t.ops, row, s.nextToken) <==> id in ids && Claimable(s.ops[id], now)) &&
            (RowBuried(t.ops, row) <==> t.ops[id].status == DeadLetter && t.ops[id].failure == Some(LEASE_EXHAUSTED))
  {
    var row := RowOf(s.ops[id]);
    var t := AfterClaim(s, ids, now, leaseMs);
    assert OperationOk(s, id, s.ops[id]);
    forall k | k in s.ops && RowOf(t.ops[k]) == row
      ensures k == id
    {
      assert RowOf(s.ops[k]) == RowOf(t.ops[k]);
    }
  }

  lemma ClaimedOperationOk(s: State, ids: set<string>, now: int, leaseMs: nat, id: string)
    requires Inv(s) && id in s.ops
    ensures var t := AfterClaim(s, ids, now, leaseMs); id in t.ops && OperationOk(t, id, t.ops[id])
  {
    var t := AfterClaim(s, ids, now, leaseMs);
    var op := s.ops[id];
    assert OperationOk(s, id, op);
    if id in ids && Claimable(op, now) {
      assert (id, s.nextToken) in t.records;
      assert t.records[(id, s.nextToken)] == Record(op.attempts + 1, op.maxAttempts);
    } else if op.lease.Some? && !Exhausted(op, now) {
      assert t.records[(id, op.lease.value.token)] == s.records[(id, op.lease.value.token)];
    }
  }

  /** What a batch makes of an operation's row, in terms of the operation before and after. */
  predicate RowFollows(s: State, t: State, before: Operation, after: Operation, taken: bool, now: int) {
    RowOf(after) == RowOf(before) && RowOf(before) in t.mirror && RowOf(before) in s.mirror &&
    t.mirror[RowOf(before)] == (
      if taken then MirrorProcessing
      else if before.kind == CreateIssue && Exhausted(before, now) then MirrorDeadLetter
      else if before.kind == AddComment && after.status == DeadLetter && after.failure == Some(LEASE_EXHAUSTED) then MirrorDeadLetter
      else s.mirror[RowOf(before)]) &&
    (before.kind == CreateIssue ==>
       (before.row in t.reported <==> before.row in s.reported && !taken && !Exhausted(before, now)))
  }

  lemma RowAfterClaim(s: State, ids: set<string>, now: int, leaseMs: nat, id: string)
    requires Inv(s) && id in s.ops
    ensures var t := AfterClaim(s, ids, now, leaseMs);
            RowFollows(s, t, s.ops[id], t.ops[id], id in ids && Claimable(s.ops[id], now), now)
  {
    RowIsOwn(s, ids, now, leaseMs, id);
    assert Mirrored(s, s.ops[id]);
  }

  lemma FollowingRowIsMirrored(s: State, t: State, op: Operation, wanted: bool, token: nat, now: int, leaseMs: nat)
    requires Mirrored(s, op)
    requires RowFollows(s, t, op, OpAfterClaim(op, wanted, token, now, leaseMs), wanted && Claimable(op, now), now)
    ensures Mirrored(t, OpAfterClaim(op, wanted, token, now, leaseMs))
  {
  }

  lemma ClaimedMirrored(s: State, ids: set<string>, now: int, leaseMs: nat, id: string)
    requires Inv(s) && id in s.ops
    ensures var t := AfterClaim(s, ids, now, leaseMs); Mirrored(t, t.ops[id])
  {
    var t := AfterClaim(s, ids, now, leaseMs);
    RowAfterClaim(s, ids, now, leaseMs, id);
    FollowingRowIsMirrored(s, t, s.ops[id], id in ids, s.nextToken, now, leaseMs);
  }

  lemma ClaimedRecordOk(s: State, ids: set<string>, now: int, leaseMs: nat, key: (string, nat))
    requires Inv(s)
    ensures RecordOk(AfterClaim(s, ids, now, leaseMs), key)
  {
    if key in s.records {
      assert RecordOk(s, key);
    }
  }

  lemma ClaimedRowsDistinct(s: State, ids: set<string>, now: int, leaseMs: nat)
    requires RowsDistinct(s.ops)
    ensures RowsDistinct(AfterClaim(s, ids, now, leaseMs).ops)
  {
    var t := AfterClaim(s, ids, now, leaseMs);
    forall a, b | a in t.ops && b in t.ops && RowOf(t.ops[a]) == RowOf(t.ops[b])
      ensures a == b
    {
      assert RowOf(s.ops[a]) == RowOf(t.ops[a]) && RowOf(s.ops[b]) == RowOf(t.ops[b]);
    }
  }

  lemma ClaimKeeps(s: State, ids: set<string>, now: int, leaseMs: nat)
    requires Inv(s)
    ensures Inv(AfterClaim(s, ids, now, leaseMs))
  {
    var t := AfterClaim(s, ids, now, leaseMs);
    ClaimedRowsDistinct(s, ids, now, leaseMs);
    assert forall id :: id in t.ops ==> Mirrored(t, t.ops[id]) && OperationOk(t, id, t.ops[id]) by {
      forall id | id in t.ops
        ensures Mirrored(t, t.ops[id]) && OperationOk(t, id, t.ops[id])
      {
        ClaimedOperationOk(s, ids, now, leaseMs, id);
        ClaimedMirrored(s, ids, now, leaseMs, id);
      }
    }
    forall key | key in t.records
      ensures RecordOk(t, key)
    {
      ClaimedRecordOk(s, ids, now, leaseMs, key);
    }
  }

  lemma StepKeeps(s: State, step: Step)
    requires Inv(s)
    ensures Inv(Next(s, step))
  {
    if step.Enqueue? {
      EnqueueKeeps(s, step.id, step.kind, step.row, step.maxAttempts);
    } else if step.Claim? {
      ClaimKeeps(s, step.ids, step.now, step.leaseMs);
    } else if step.IssueDeleted? {
      IssueDeletedKeeps(s, step.requestId);
    } else if step.id in s.ops && Next(s, step) != s {
      var t := Next(s, step);
      WriteKeeps(s, step.id, t.ops[step.id], MirrorOf(t.ops[step.id]));
    }
  }

  lemma {:induction false} RunKeeps(s: State, steps: seq<Step>)
    requires Inv(s)
    ensures Inv(Execute(s, steps))
    decreases |steps|
  {
    if steps != [] {
      StepKeeps(s, steps[0]);
      RunKeeps(Next(s, steps[0]), steps[1..]);
    }
  }

  // ----- the results -----

  /**
   * In every run: each operation's row mirrors its status, attempts stay within 0..maxAttempts, a
   * lease token is present exactly while PROCESSING, and whoever passes the token guard was handed
   * the attempts the operation still has.
   */
  lemma TablesStayInStep(steps: seq<Step>, id: string)
    ensures var s := Execute(Initial, steps);
            id in s.ops ==>
              var op := s.ops[id];
              Mirrored(s, op) && op.attempts <= op.maxAttempts && (op.status == Processing <==> op.lease.Some?) &&
              forall token: nat :: Guard(s, id, token) ==>
                (id, token) in s.records && s.records[(id, token)] == Record(op.attempts, op.maxAttempts)
  {
    RunKeeps(Initial, steps);
  }

  /** COMPLETED is final: no later step changes the operation. */
  lemma {:induction false} CompletedIsFinal(s: State, steps: seq<Step>, id: string)
    requires id in s.ops && s.ops[id].status == Completed
    ensures id in Execute(s, steps).ops && Execute(s, steps).ops[id] == s.ops[id]
    decreases |steps|
  {
    if steps != [] {
      assert Next(s, steps[0]).ops[id] == s.ops[id];
      CompletedIsFinal(Next(s, steps[0]), steps[1..], id);
    }
  }

  /** In every run: a failure that does not bury its operation asks for a back-off of an attempt from 1 to maxAttempts - 1. */
  lemma BackoffArgument(steps: seq<Step>, key: (string, nat))
    ensures var s := Execute(Initial, steps);
            key in s.records && !Buries(s.records[key], true) ==>
              var attempts := s.records[key].attempts;
              1 <= attempts < s.records[key].maxAttempts && (BackoffMs(attempts).Some? <==> attempts <= 20)
  {
    RunKeeps(Initial, steps);
    assert RecordOk(Execute(Initial, steps), key);
  }

  // ----- with more than 21 attempts the back-off does throw -----

  /** An operation that failed n times and may be claimed at time `at`. */
  predicate FailedTimes(s: State, n: nat, maxAttempts: nat) {
    Inv(s) && "op" in s.ops && s.ops["op"].kind == CreateIssue && s.ops["op"].attempts == n && s.ops["op"].maxAttempts == maxAttempts &&
    s.ops["op"].status == if n == 0 then Pending else Failed
  }

  lemma {:induction false} ExecuteAppend(s: State, steps: seq<Step>, step: Step)
    ensures Execute(s, steps + [step]) == Next(Execute(s, steps), step)
    decreases |steps|
  {
    if steps == [] {
      assert [step][1..] == [];
      assert Execute(Next(s, step), []) == Next(s, step);
    } else {
      assert (steps + [step])[1..] == steps[1..] + [step];
      ExecuteAppend(Next(s, steps[0]), steps[1..], step);
    }
  }

  lemma ClaimOnce(s: State, n: nat, maxAttempts: nat) returns (t: State)
    requires FailedTimes(s, n, maxAttempts) && n < maxAttempts
    ensures t == Next(s, Claim({"op"}, s.ops["op"].nextAttemptAt, 1000)) && Inv(t)
    ensures ("op", s.nextToken) in t.records && t.records[("op", s.nextToken)] == Record(n + 1, maxAttempts)
    ensures Guard(t, "op", s.nextToken) && t.ops["op"].attempts == n + 1 && t.ops["op"].maxAttempts == maxAttempts &&
            t.ops["op"].kind == CreateIssue
  {
    t := AfterClaim(s, {"op"}, s.ops["op"].nextAttemptAt, 1000);
    ClaimKeeps(s, {"op"}, s.ops["op"].nextAttemptAt, 1000);
    assert Claimable(s.ops["op"], s.ops["op"].nextAttemptAt);
    assert ("op", s.nextToken) in t.records;
  }

  lemma FailOnce(t: State, token: nat, n: nat, maxAttempts: nat) returns (fail: Step)
    requires Inv(t) && Guard(t, "op", token) && ("op", token) in t.records && t.records[("op", token)] == Record(n, maxAttempts)
    requires t.ops["op"].attempts == n && t.ops["op"].maxAttempts == maxAttempts && t.ops["op"].kind == CreateIssue
    requires 1 <= n <= 20 && n < maxAttempts
    ensures FailedTimes(Next(t, fail), n, maxAttempts)
  {
    fail := Fail("op", token, "CODE", true, 0);
    StepKeeps(t, fail);
  }

  lemma FirstEnqueue(maxAttempts: nat)
    ensures FailedTimes(Next(Initial, Enqueue("op", CreateIssue, "r", maxAttempts)), 0, maxAttempts)
  {
    EnqueueKeeps(Initial, "op", CreateIssue, "r", maxAttempts);
  }

  lemma {:induction false} ReachFailures(n: nat, maxAttempts: nat) returns (steps: seq<Step>)
    requires n <= 20 && n < maxAttempts
    ensures FailedTimes(Execute(Initial, steps), n, maxAttempts)
  {
    if n == 0 {
      FirstEnqueue(maxAttempts);
      ExecuteAppend(Initial, [], Enqueue("op", CreateIssue, "r", maxAttempts));
      assert Execute(Initial, []) == Initial;
      steps := [] + [Enqueue("op", CreateIssue, "r", maxAttempts)];
    } else {
      var before := ReachFailures(n - 1, maxAttempts);
      var s := Execute(Initial, before);
      var t := ClaimOnce(s, n - 1, maxAttempts);
      var claim := Claim({"op"}, s.ops["op"].nextAttemptAt, 1000);
      ExecuteAppend(Initial, before, claim);
      var fail := FailOnce(t, s.nextToken, n, maxAttempts);
      ExecuteAppend(Initial, before + [claim], fail);
      steps := before + [claim] + [fail];
    }
  }

  /** A run hands out this record, and its retryable failure makes the back-off throw. */
  predicate Throws(steps: seq<Step>, key: (string, nat), maxAttempts: nat) {
    var records := Execute(Initial, steps).records;
    key in records && records[key].maxAttempts == maxAttempts && !Buries(records[key], true) &&
    BackoffMs(records[key].attempts).None?
  }

  ghost predicate BackoffCanThrow(maxAttempts: nat) {
    exists steps, key :: Throws(steps, key, maxAttempts)
  }

  lemma TwentyFirstAttempt(maxAttempts: nat) returns (steps: seq<Step>, key: (string, nat))
    requires maxAttempts > 21
    ensures Throws(steps, key, maxAttempts)
  {
    var before := ReachFailures(20, maxAttempts);
    var s := Execute(Initial, before);
    var t := ClaimOnce(s, 20, maxAttempts);
    var claim := Claim({"op"}, s.ops["op"].nextAttemptAt, 1000);
    ExecuteAppend(Initial, before, claim);
    steps, key := before + [claim], ("op", s.nextToken);
  }

  /** The back-off rejects its argument in some run if and only if more than 21 attempts are allowed. */
  lemma BackoffThrowsIff(maxAttempts: nat)
    ensures BackoffCanThrow(maxAttempts) <==> maxAttempts > 21
  {
    if maxAttempts > 21 {
      var steps, key := TwentyFirstAttempt(maxAttempts);
    } else if BackoffCanThrow(maxAttempts) {
      var steps, key :| Throws(steps, key, maxAttempts);
      BackoffArgument(steps, key);
    }
  }
}
