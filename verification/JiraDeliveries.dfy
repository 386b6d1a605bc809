/** What each outbound transaction achieves in a whole run, and how often an operation is handed out. */
module JiraDeliveries {
  import opened Wrappers
  import opened Powers
  import opened JiraOutbox

  // ----- claims -----

  /** Ready to be handed out: attempts are left, and it is due or its last worker's lease has lapsed. */
  predicate Ready(op: Operation, now: int) {
    op.attempts < op.maxAttempts &&
    match op.status
    case Pending => op.nextAttemptAt <= now
    case Failed => op.nextAttemptAt <= now
    case Processing => op.lease.Some? && op.lease.value.until <= now
    case Completed => false
    case DeadLetter => false
  }

  /** Given up by a worker on the last attempt. */
  predicate WornOut(op: Operation, now: int) {
    op.status == Processing && op.lease.Some? && op.lease.value.until <= now && op.attempts >= op.maxAttempts
  }

  /**
   * A batch hands out exactly the wanted operations that are ready, each with one more attempt under the
   * batch's own token; it buries the worn-out ones, wanted or not, and leaves the others as they are.
   */
  lemma ClaimHandsOutReady(s: State, ids: set<string>, now: int, leaseMs: nat, id: string)
    requires Inv(s)
    ensures var t := Next(s, Claim(ids, now, leaseMs));
            t.ops.Keys == s.ops.Keys && s.nextToken < t.nextToken &&
            (forall key ::
               key in t.records <==>
               key in s.records || (key.1 == s.nextToken && key.0 in ids && key.0 in s.ops && Ready(s.ops[key.0], now))) &&
            (id in s.ops ==>
               var op := s.ops[id];
               t.ops[id] == (if id in ids && Ready(op, now)
                             then op.(status := Processing, attempts := op.attempts + 1,
                               lease := Some(Lease(s.nextToken, now + leaseMs)), failure := None)
                             else if WornOut(op, now) then op.(status := DeadLetter, lease := None,
                               failure := Some("JIRA_LEASE_EXHAUSTED"))
                             else op))
  {
    var t := Next(s, Claim(ids, now, leaseMs));
    forall key: (string, nat)
      ensures key in t.records <==>
              key in s.records || (key.1 == s.nextToken && key.0 in ids && key.0 in s.ops && Ready(s.ops[key.0], now))
    {
      if key.0 in s.ops {
        assert OperationOk(s, key.0, s.ops[key.0]);
      }
    }
    if id in s.ops {
      assert OperationOk(s, id, s.ops[id]);
    }
  }

  /** While a lease runs, no claim hands the operation to anybody else or buries it. */
  lemma RunningLeaseHolds(s: State, ids: set<string>, now: int, leaseMs: nat, id: string)
    requires Inv(s) && id in s.ops && s.ops[id].status == Processing && s.ops[id].lease.value.until > now
    ensures var t := Next(s, Claim(ids, now, leaseMs));
            t.ops[id] == s.ops[id] && forall token: nat :: (id, token) in t.records <==> (id, token) in s.records
  {
    ClaimHandsOutReady(s, ids, now, leaseMs, id);
    var t := Next(s, Claim(ids, now, leaseMs));
    forall token: nat
      ensures (id, token) in t.records <==> (id, token) in s.records
    {
      assert (id, token).0 == id;
    }
  }

  // ----- completions and failures -----

  /** Nobody new was handed the operation. */
  ghost predicate SameRecords(s: State, t: State, id: string) {
    forall token: nat :: (id, token) in t.records <==> (id, token) in s.records
  }

  lemma ClaimGivesNothing(s: State, step: Step, id: string)
    requires Inv(s) && step.Claim? && id in s.ops && s.ops[id].status in {Completed, DeadLetter}
    ensures var t := Next(s, step); id in t.ops && t.ops[id] == s.ops[id] && SameRecords(s, t, id)
  {
    ClaimHandsOutReady(s, step.ids, step.now, step.leaseMs, id);
    var t := Next(s, step);
    forall token: nat ensures (id, token) in t.records <==> (id, token) in s.records {
      assert (id, token).0 == id;
    }
  }

  lemma FinishedStep(s: State, step: Step, id: string)
    requires Inv(s) && id in s.ops && s.ops[id].status in {Completed, DeadLetter}
    requires s.ops[id].status == DeadLetter ==> !(step.Retry? && step.id == id)
    ensures var t := Next(s, step); id in t.ops && t.ops[id] == s.ops[id] && SameRecords(s, t, id)
  {
    if step.Claim? {
      ClaimGivesNothing(s, step, id);
    }
  }

  /** Completed for good, or buried and not retried: the operation stays as it is and is handed to nobody. */
  lemma {:induction false} FinishedStays(s: State, steps: seq<Step>, id: string)
    requires Inv(s) && id in s.ops && s.ops[id].status in {Completed, DeadLetter}
    requires s.ops[id].status == DeadLetter ==> forall i :: 0 <= i < |steps| && steps[i].Retry? ==> steps[i].id != id
    ensures var t := Execute(s, steps); id in t.ops && t.ops[id] == s.ops[id] && SameRecords(s, t, id)
    decreases |steps|
  {
    if steps != [] {
      FinishedStep(s, steps[0], id);
      StepKeeps(s, steps[0]);
      assert forall i :: 0 <= i < |steps| - 1 ==> steps[1..][i] == steps[i + 1];
      FinishedStays(Next(s, steps[0]), steps[1..], id);
    }
  }

  /**
   * In every run: a worker that still holds the operation's token completes it, the row shows the issue
   * created or the comment sent, and whatever happens later the operation is handed to nobody again.
   */
  lemma CompleteEnds(steps: seq<Step>, id: string, token: nat, more: seq<Step>)
    requires var s := Execute(Initial, steps); (id, token) in s.records && Guard(s, id, token)
    ensures var s := Execute(Initial, steps);
            var t := Next(s, Complete(id, token));
            var op := s.ops[id];
            t.ops[id] == op.(status := Completed, lease := None, failure := None) && RowOf(op) in t.mirror &&
            t.mirror[RowOf(op)] == (if op.kind == CreateIssue then MirrorCreated else MirrorSent) &&
            id in Execute(t, more).ops && Execute(t, more).ops[id] == t.ops[id] && SameRecords(s, Execute(t, more), id)
  {
    RunKeeps(Initial, steps);
    var s := Execute(Initial, steps);
    StepKeeps(s, Complete(id, token));
    FinishedStays(Next(s, Complete(id, token)), more, id);
  }

  /** Whoever lost the token, because the lease lapsed and the operation was handed on or buried, changes nothing. */
  lemma LateWorkerChangesNothing(s: State, id: string, token: nat, code: string, retryable: bool, now: int)
    requires !(id in s.ops && s.ops[id].status == Processing && s.ops[id].lease.Some? && s.ops[id].lease.value.token == token)
    ensures Next(s, Complete(id, token)) == s && Next(s, Fail(id, token, code, retryable, now)) == s
  {
  }

  /**
   * In every run: a failure under the token buries the operation exactly if it cannot be retried or that was
   * the last attempt, and otherwise makes it due again after one second doubled with every attempt, five
   * minutes at most, unless the attempt is beyond the twentieth, when nothing is written.
   */
  lemma FailEnds(steps: seq<Step>, id: string, token: nat, code: string, retryable: bool, now: int)
    requires var s := Execute(Initial, steps); (id, token) in s.records && Guard(s, id, token)
    ensures var s := Execute(Initial, steps);
            var t := Next(s, Fail(id, token, code, retryable, now));
            var op := s.ops[id];
            RowOf(op) in t.mirror && op.attempts >= 1 &&
            if !retryable || op.attempts == op.maxAttempts then
              t.ops[id] == op.(status := DeadLetter, nextAttemptAt := now, lease := None, failure := Some(code)) &&
              t.mirror[RowOf(op)] == MirrorDeadLetter
            else if op.attempts <= 20 then
              t.ops[id] == op.(status := Failed, nextAttemptAt := now + DoublingDelayMs(op.attempts), lease := None,
                failure := Some(code)) &&
              t.mirror[RowOf(op)] == MirrorFailed
            else t == s
  {
    RunKeeps(Initial, steps);
    var s := Execute(Initial, steps);
    assert OperationOk(s, id, s.ops[id]) && Mirrored(s, s.ops[id]);
    assert RecordOk(s, (id, token));
  }

  /** Retrying a buried operation makes it ready at once with all its attempts; nothing else can be retried. */
  lemma RetryRevives(s: State, id: string, now: int)
    requires Inv(s) && id in s.ops
    ensures var t := Next(s, Retry(id, now));
            if s.ops[id].status == DeadLetter then
              t.ops[id] == s.ops[id].(status := Pending, attempts := 0, nextAttemptAt := now, lease := None, failure := None) &&
              (Ready(t.ops[id], now) <==> s.ops[id].maxAttempts > 0)
            else t == s
  {
  }

  /** Burying by hand is for failed operations, and keeps the code of the failure. */
  lemma MoveBuries(s: State, id: string, now: int)
    requires Inv(s) && id in s.ops
    ensures var t := Next(s, MoveToDeadLetter(id, now));
            if s.ops[id].status == Failed then
              t.ops[id] == s.ops[id].(status := DeadLetter, nextAttemptAt := now, failure := t.ops[id].failure) &&
                t.ops[id].failure.Some? &&
              (s.ops[id].failure.Some? ==> t.ops[id].failure == s.ops[id].failure)
            else t == s
  {
  }

  /** When Jira reports an issue deleted, its request shows a failure until its operation writes again; no operation changes. */
  lemma DeletedIssueShows(s: State, requestId: string)
    ensures var t := Next(s, IssueDeleted(requestId));
            t.ops == s.ops && t.records == s.records &&
            (forall row :: row in t.mirror <==> row in s.mirror) &&
            forall row :: row in s.mirror ==>
              t.mirror[row] == if row == (CreateIssue, requestId) then MirrorFailed else s.mirror[row]
  {
  }

  /** A new operation is ready from the start if it has any attempts; a row has only one operation. */
  lemma EnqueueMakesReady(s: State, id: string, kind: OperationType, row: string, maxAttempts: nat, now: int)
    requires Inv(s) && id !in s.ops && now >= 0
    ensures var t := Next(s, Enqueue(id, kind, row, maxAttempts));
            if (kind, row) in s.mirror then t == s
            else
              id in t.ops && RowOf(t.ops[id]) == (kind, row) && (Ready(t.ops[id], now) <==> maxAttempts > 0) &&
              t.mirror[(kind, row)] == MirrorPending
  {
  }

  // ----- how often an operation is handed out -----

  function HandOuts(s: State, id: string): set<(string, nat)> {
    set key | key in s.records && key.0 == id
  }

  function Retries(steps: seq<Step>, id: string): nat {
    if steps == [] then 0
    else Retries(steps[..|steps| - 1], id) + if steps[|steps| - 1].Retry? && steps[|steps| - 1].id == id then 1 else 0
  }

  predicate HandOutsBounded(s: State, id: string, retries: nat) {
    if id in s.ops then |HandOuts(s, id)| <= retries * s.ops[id].maxAttempts + s.ops[id].attempts else HandOuts(s, id) == {}
  }

  lemma TokenIsNew(s: State, id: string)
    requires Inv(s)
    ensures (id, s.nextToken) !in HandOuts(s, id)
  {
    assert (id, s.nextToken) in s.records ==> RecordOk(s, (id, s.nextToken));
  }

  lemma HandOutsAfterClaim(s: State, step: Step, id: string)
    requires Inv(s) && step.Claim? && id in s.ops
    ensures HandOuts(Next(s, step), id) ==
            HandOuts(s, id) + if id in step.ids && Ready(s.ops[id], step.now) then {(id, s.nextToken)} else {}
  {
    ClaimHandsOutReady(s, step.ids, step.now, step.leaseMs, id);
  }

  lemma ClaimAddsOne(s: State, step: Step, id: string)
    requires Inv(s) && step.Claim? && id in s.ops
    ensures var t := Next(s, step);
            id in t.ops && t.ops[id].maxAttempts == s.ops[id].maxAttempts &&
            |HandOuts(t, id)| - |HandOuts(s, id)| == t.ops[id].attempts - s.ops[id].attempts
  {
    TokenIsNew(s, id);
    HandOutsAfterClaim(s, step, id);
    ClaimHandsOutReady(s, step.ids, step.now, step.leaseMs, id);
  }

  /** Only a claim hands out, and only a retry takes attempts back. */
  lemma OtherStepHandsOutNothing(s: State, step: Step, id: string)
    requires Inv(s) && !step.Claim?
    ensures var t := Next(s, step);
            t.records == s.records &&
            (id in s.ops ==>
               id in t.ops && t.ops[id].maxAttempts == s.ops[id].maxAttempts && s.ops[id].attempts <= s.ops[id].maxAttempts &&
               (t.ops[id].attempts == s.ops[id].attempts || (step.Retry? && step.id == id && t.ops[id].attempts == 0)))
  {
    assert id in s.ops ==> OperationOk(s, id, s.ops[id]);
  }

  lemma UnknownHandsOutNothing(s: State, step: Step, id: string)
    requires Inv(s) && id !in s.ops
    ensures HandOuts(Next(s, step), id) == {}
  {
    forall key | key in s.records
      ensures key.0 != id
    {
      assert RecordOk(s, key);
    }
  }

  lemma HandOutsStep(s: State, step: Step, id: string, retries: nat)
    requires Inv(s) && HandOutsBounded(s, id, retries)
    ensures HandOutsBounded(Next(s, step), id, retries + if step.Retry? && step.id == id then 1 else 0)
  {
    if id !in s.ops {
      UnknownHandsOutNothing(s, step, id);
    } else if step.Claim? {
      ClaimAddsOne(s, step, id);
    } else {
      OtherStepHandsOutNothing(s, step, id);
      var limit := s.ops[id].maxAttempts;
      assert HandOuts(Next(s, step), id) == HandOuts(s, id);
      assert (retries + 1) * limit == retries * limit + limit;
    }
  }

  lemma {:induction false} HandOutsRun(steps: seq<Step>, id: string)
    ensures Inv(Execute(Initial, steps)) && HandOutsBounded(Execute(Initial, steps), id, Retries(steps, id))
  {
    if steps == [] {
      assert HandOuts(Initial, id) == {};
    } else {
      var before, last := steps[..|steps| - 1], steps[|steps| - 1];
      HandOutsRun(before, id);
      assert steps == before + [last];
      ExecuteAppend(Initial, before, last);
      StepKeeps(Execute(Initial, before), last);
      HandOutsStep(Execute(Initial, before), last, id, Retries(before, id));
    }
  }

  /** In every run an operation is handed out at most maxAttempts times, and as often again for each retry by hand. */
  lemma AtMostMaxAttemptsHandOuts(steps: seq<Step>, id: string)
    ensures var s := Execute(Initial, steps);
            if id in s.ops then |HandOuts(s, id)| <= (Retries(steps, id) + 1) * s.ops[id].maxAttempts else HandOuts(s, id) == {}
  {
    HandOutsRun(steps, id);
    var s := Execute(Initial, steps);
    if id in s.ops {
      assert OperationOk(s, id, s.ops[id]);
      assert (Retries(steps, id) + 1) * s.ops[id].maxAttempts ==
             Retries(steps, id) * s.ops[id].maxAttempts + s.ops[id].maxAttempts;
    }
  }
}
