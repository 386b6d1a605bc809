/**
 * What one uninterrupted run of the document worker does, from any state in which it claims a job: with which
 * status the document ends, what becomes of its derivatives and its job, and when it is due again.
 */
module DocumentPaths {
  import opened Wrappers
  import opened Powers
  import opened DocumentQueue
  import opened DocumentWorker
  import opened DocumentSteps

  /** A claim that takes job i, by a worker whose lease is still running when it checks. */
  predicate CanWork(s: State, w: string, at: int, ms: int, i: nat) {
    s.nextRun !in s.runs && at <= s.now < at + ms && OldestClaimable(s.jobs, at, |s.jobs|) == Some(i) &&
      s.jobs[i].documentId in s.docs
  }

  /** Where a run stands, and what has changed since state s. */
  predicate Reached(s: State, t: State, run: Run, jobs: seq<Job>, doc: Document, derivatives: set<string>) {
    t.now == s.now && t.policy == s.policy && t.jobs == jobs && t.docs == s.docs[run.job.documentId := doc] &&
    t.derivatives == derivatives && t.runs == s.runs[s.nextRun := run] && s.nextRun !in s.runs
  }

  function Taken(s: State, w: string, at: int, ms: int, i: nat): Job
    requires i < |s.jobs|
  {
    ClaimedBy(s.jobs[i], w, at, ms)
  }

  function MarkedDoc(s: State, run: Run, attempts: nat): Document {
    Document(Processing, attempts, Some(run.workerId), Token(run), Some(Mark(s.nextRun, run.job.id, run.workerId, Token(run))))
  }

  lemma Begins(s: State, w: string, at: int, ms: int, i: nat)
    requires CanWork(s, w, at, ms, i)
    ensures var job := Taken(s, w, at, ms, i);
            Reached(s, Next(s, Claim(w, at, ms)), Run(job, w, Claimed), s.jobs[i := job], s.docs[job.documentId], s.derivatives)
  {
    var d := s.jobs[i].documentId;
    assert s.docs[d := s.docs[d]] == s.docs;
  }

  lemma Reads(s: State, t: State, run: Run, jobs: seq<Job>, doc: Document, derivatives: set<string>)
    requires Reached(s, t, run.(point := Claimed), jobs, doc, derivatives)
    ensures var point := if doc.status in {Queued, Processing} then Ready(doc.attempts)
                         else if doc.status == Uploaded then SawUploaded else Acknowledging;
            Reached(s, Next(t, Read(s.nextRun)), run.(point := point), jobs, doc, derivatives)
  {
  }

  lemma Promotes(s: State, t: State, run: Run, jobs: seq<Job>, doc: Document, derivatives: set<string>)
    requires Reached(s, t, run.(point := SawUploaded), jobs, doc, derivatives) && doc.status == Uploaded
    ensures Reached(s, Next(t, Promote(s.nextRun)), run.(point := Ready(doc.attempts)), jobs, doc.(status := Queued), derivatives)
  {
  }

  lemma MarksProcessing(s: State, t: State, run: Run, jobs: seq<Job>, doc: Document, derivatives: set<string>)
    requires Reached(s, t, run.(point := Ready(doc.attempts)), jobs, doc, derivatives) && doc.status in {Queued, Processing}
    ensures var n := doc.attempts + 1;
            Reached(s, Next(t, MarkProcessing(s.nextRun)), run.(point := Working(n)), jobs, MarkedDoc(s, run, n), derivatives)
  {
  }

  lemma Saves(s: State, t: State, run: Run, n: nat, jobs: seq<Job>, doc: Document, derivatives: set<string>)
    requires Reached(s, t, run.(point := Working(n)), jobs, doc, derivatives)
    ensures Reached(s, Next(t, Save(s.nextRun)), run.(point := SavedOutput(n)), jobs, doc, derivatives + {run.job.documentId})
  {
  }

  /** The job the run claimed is its own, and its lease is running. */
  predicate Holds(jobs: seq<Job>, i: nat, run: Run, now: int) {
    i < |jobs| && jobs[i] == run.job && IndexOfJob(jobs, run.job.id) == Some(i) && OwnedBy(run.job, run.workerId, Token(run)) &&
    LeaseRunning(run.job, now)
  }

  lemma Asserts(s: State, t: State, run: Run, n: nat, jobs: seq<Job>, i: nat, doc: Document, derivatives: set<string>)
    requires Reached(s, t, run.(point := SavedOutput(n)), jobs, doc, derivatives) && Holds(jobs, i, run, s.now)
    ensures Reached(s, Next(t, AssertOwned(s.nextRun)), run.(point := Owned(n)), jobs, doc, derivatives)
  {
  }

  lemma Completes(s: State, t: State, run: Run, n: nat, jobs: seq<Job>, derivatives: set<string>)
    requires Reached(s, t, run.(point := Owned(n)), jobs, MarkedDoc(s, run, n), derivatives)
    ensures Reached(s, Next(t, Complete(s.nextRun)), run.(point := Acknowledging), jobs,
                    MarkedDoc(s, run, n).(status := Completed, workerId := None), derivatives)
  {
  }

  lemma Throws(s: State, t: State, run: Run, n: nat, retryable: bool, jobs: seq<Job>, doc: Document, derivatives: set<string>)
    requires Reached(s, t, run.(point := Working(n)), jobs, doc, derivatives)
    ensures Reached(s, Next(t, Throw(s.nextRun, retryable)), run.(point := Failing(n, retryable)), jobs, doc, derivatives)
  {
  }

  lemma Drops(s: State, t: State, run: Run, n: nat, retryable: bool, jobs: seq<Job>, doc: Document, derivatives: set<string>)
    requires Reached(s, t, run.(point := Failing(n, retryable)), jobs, doc, derivatives)
    ensures Reached(s, Next(t, Drop(s.nextRun)), run.(point := Dropped(n, retryable)), jobs, doc,
             derivatives - {run.job.documentId})
  {
  }

  /** The state in which a run that got there ends. */
  predicate Ended(s: State, t: State, d: string, jobs: seq<Job>, doc: Document, derivatives: set<string>) {
    t.now == s.now && t.jobs == jobs && t.docs == s.docs[d := doc] && t.derivatives == derivatives && t.runs == s.runs
  }

  lemma Acknowledges(s: State, t: State, run: Run, jobs: seq<Job>, i: nat, doc: Document, derivatives: set<string>)
    requires Reached(s, t, run.(point := Acknowledging), jobs, doc, derivatives) && Holds(jobs, i, run, s.now)
    ensures Ended(s, Next(t, Acknowledge(s.nextRun)), run.job.documentId, jobs[..i] + jobs[i + 1..], doc, derivatives)
  {
    assert t.runs - {s.nextRun} == s.runs;
  }

  lemma Releases(s: State, t: State, run: Run, due: int, jobs: seq<Job>, i: nat, doc: Document, derivatives: set<string>)
    requires Reached(s, t, run.(point := Releasing(due)), jobs, doc, derivatives) && Holds(jobs, i, run, s.now)
    ensures Ended(s, Next(t, Release(s.nextRun)), run.job.documentId,
                  jobs[i := run.job.(claimed := false, workerId := None, leaseExpiresAt := None, availableAt := due)],
                    doc, derivatives)
  {
    assert t.runs - {s.nextRun} == s.runs;
  }

  lemma TakenIsHeld(s: State, w: string, at: int, ms: int, i: nat)
    requires CanWork(s, w, at, ms, i) && DistinctIds(s.jobs)
    ensures var job := Taken(s, w, at, ms, i);
            Holds(s.jobs[i := job], i, Run(job, w, Claimed), s.now)
  {
    var jobs := s.jobs[i := Taken(s, w, at, ms, i)];
    var found := IndexOfJob(jobs, jobs[i].id);
    assert found.Some?;
    assert jobs[found.value].id == s.jobs[found.value].id;
  }

  // ----- whole runs -----

  lemma TwoSteps(s: State, a: Step, b: Step)
    ensures Execute(s, [a, b]) == Next(Next(s, a), b)
  {
    assert [a, b][1..] == [b] && [b][1..] == [];
    assert Execute(Next(s, a), [b]) == Next(Next(s, a), b);
  }

  lemma ThreeSteps(s: State, a: Step, b: Step, c: Step)
    ensures Execute(s, [a, b, c]) == Next(Next(Next(s, a), b), c)
  {
    assert [a, b, c][1..] == [b, c];
    TwoSteps(Next(s, a), b, c);
  }

  /** From the claim to the PROCESSING mark; an UPLOADED document is promoted on the way. */
  function StartSteps(r: nat, w: string, at: int, ms: int, uploaded: bool): seq<Step> {
    [Claim(w, at, ms), Read(r)] + if uploaded then [Promote(r), MarkProcessing(r)] else [MarkProcessing(r)]
  }

  lemma ClaimsAndReads(s: State, w: string, at: int, ms: int, i: nat, run: Run, point: Point, jobs: seq<Job>, doc: Document)
    requires CanWork(s, w, at, ms, i) && run == Run(Taken(s, w, at, ms, i), w, Claimed)
    requires jobs == s.jobs[i := run.job] && doc == s.docs[run.job.documentId]
    requires point == if doc.status in {Queued, Processing} then Ready(doc.attempts)
                      else if doc.status == Uploaded then SawUploaded else Acknowledging
    ensures Reached(s, Execute(s, [Claim(w, at, ms), Read(s.nextRun)]), run.(point := point), jobs, doc, s.derivatives)
  {
    Begins(s, w, at, ms, i);
    Reads(s, Next(s, Claim(w, at, ms)), run, jobs, doc, s.derivatives);
    TwoSteps(s, Claim(w, at, ms), Read(s.nextRun));
  }

  lemma PromotesAndMarks(s: State, t: State, run: Run, jobs: seq<Job>, doc: Document, derivatives: set<string>)
    requires Reached(s, t, run.(point := SawUploaded), jobs, doc, derivatives) && doc.status == Uploaded
    ensures var n := doc.attempts + 1;
            Reached(s, Execute(t, [Promote(s.nextRun), MarkProcessing(s.nextRun)]), run.(point := Working(n)), jobs,
              MarkedDoc(s, run, n), derivatives)
  {
    Promotes(s, t, run, jobs, doc, derivatives);
    MarksProcessing(s, Next(t, Promote(s.nextRun)), run, jobs, doc.(status := Queued), derivatives);
    TwoSteps(t, Promote(s.nextRun), MarkProcessing(s.nextRun));
  }

  lemma ReachedInTwo(s: State, first: seq<Step>, second: seq<Step>, run: Run, jobs: seq<Job>, doc: Document,
        derivatives: set<string>)
    requires Reached(s, Execute(Execute(s, first), second), run, jobs, doc, derivatives)
    ensures Reached(s, Execute(s, first + second), run, jobs, doc, derivatives)
  {
    ExecuteAppend(s, first, second);
  }

  lemma StartsUploaded(s: State, w: string, at: int, ms: int, i: nat, run: Run, jobs: seq<Job>, doc: Document, marked: Document)
    requires CanWork(s, w, at, ms, i) && run == Run(Taken(s, w, at, ms, i), w, Claimed)
    requires jobs == s.jobs[i := run.job] && doc == s.docs[run.job.documentId] && doc.status == Uploaded
    requires marked == MarkedDoc(s, run, doc.attempts + 1)
    ensures Reached(s, Execute(s, StartSteps(s.nextRun, w, at, ms, true)), run.(point := Working(doc.attempts + 1)),
             jobs, marked, s.derivatives)
  {
    var first, second := [Claim(w, at, ms), Read(s.nextRun)], [Promote(s.nextRun), MarkProcessing(s.nextRun)];
    ClaimsAndReads(s, w, at, ms, i, run, SawUploaded, jobs, doc);
    PromotesAndMarks(s, Execute(s, first), run, jobs, doc, s.derivatives);
    ReachedInTwo(s, first, second, run.(point := Working(doc.attempts + 1)), jobs, marked, s.derivatives);
  }

  lemma StartsQueued(s: State, w: string, at: int, ms: int, i: nat, run: Run, jobs: seq<Job>, doc: Document, marked: Document)
    requires CanWork(s, w, at, ms, i) && run == Run(Taken(s, w, at, ms, i), w, Claimed)
    requires jobs == s.jobs[i := run.job] && doc == s.docs[run.job.documentId] && doc.status in {Queued, Processing}
    requires marked == MarkedDoc(s, run, doc.attempts + 1)
    ensures Reached(s, Execute(s, StartSteps(s.nextRun, w, at, ms, false)), run.(point := Working(doc.attempts + 1)),
             jobs, marked, s.derivatives)
  {
    var first, second := [Claim(w, at, ms), Read(s.nextRun)], [MarkProcessing(s.nextRun)];
    ClaimsAndReads(s, w, at, ms, i, run, Ready(doc.attempts), jobs, doc);
    MarksProcessing(s, Execute(s, first), run, jobs, doc, s.derivatives);
    ExecuteOne(Execute(s, first), MarkProcessing(s.nextRun));
    ReachedInTwo(s, first, second, run.(point := Working(doc.attempts + 1)), jobs, marked, s.derivatives);
  }

  lemma Starts(s: State, w: string, at: int, ms: int, i: nat, run: Run, jobs: seq<Job>, doc: Document, marked: Document)
    requires CanWork(s, w, at, ms, i) && run == Run(Taken(s, w, at, ms, i), w, Claimed)
    requires jobs == s.jobs[i := run.job] && doc == s.docs[run.job.documentId] && doc.status in {Uploaded, Queued, Processing}
    requires marked == MarkedDoc(s, run, doc.attempts + 1)
    ensures Reached(s, Execute(s, StartSteps(s.nextRun, w, at, ms, doc.status == Uploaded)),
             run.(point := Working(doc.attempts + 1)),
                    jobs, marked, s.derivatives)
  {
    if doc.status == Uploaded {
      StartsUploaded(s, w, at, ms, i, run, jobs, doc, marked);
    } else {
      StartsQueued(s, w, at, ms, i, run, jobs, doc, marked);
    }
  }

  lemma SavesAndAsserts(s: State, t: State, run: Run, n: nat, jobs: seq<Job>, i: nat, doc: Document, derivatives: set<string>)
    requires Reached(s, t, run.(point := Working(n)), jobs, doc, derivatives) && Holds(jobs, i, run, s.now)
    ensures Reached(s, Execute(t, [Save(s.nextRun), AssertOwned(s.nextRun)]), run.(point := Owned(n)), jobs, doc,
                    derivatives + {run.job.documentId})
  {
    Saves(s, t, run, n, jobs, doc, derivatives);
    Asserts(s, Next(t, Save(s.nextRun)), run, n, jobs, i, doc, derivatives + {run.job.documentId});
    TwoSteps(t, Save(s.nextRun), AssertOwned(s.nextRun));
  }

  lemma CompletesAndAcknowledges(s: State, t: State, run: Run, n: nat, jobs: seq<Job>, i: nat, derivatives: set<string>)
    requires Reached(s, t, run.(point := Owned(n)), jobs, MarkedDoc(s, run, n), derivatives) && Holds(jobs, i, run, s.now)
    ensures Ended(s, Execute(t, [Complete(s.nextRun), Acknowledge(s.nextRun)]), run.job.documentId, jobs[..i] + jobs[i + 1..],
                  MarkedDoc(s, run, n).(status := Completed, workerId := None), derivatives)
  {
    Completes(s, t, run, n, jobs, derivatives);
    Acknowledges(s, Next(t, Complete(s.nextRun)), run, jobs, i, MarkedDoc(s, run, n).(status := Completed,
      workerId := None), derivatives);
    TwoSteps(t, Complete(s.nextRun), Acknowledge(s.nextRun));
  }

  /**
   * A run that is not disturbed completes an uploaded, queued or abandoned document: it has its derivatives,
   * one more attempt and no job any more, and nothing else has changed.
   */
  lemma UndisturbedRunCompletes(s: State, w: string, at: int, ms: int, i: nat)
    requires CanWork(s, w, at, ms, i) && DistinctIds(s.jobs) && s.docs[s.jobs[i].documentId].status in {Uploaded,
             Queued, Processing}
    ensures var r, d := s.nextRun, s.jobs[i].documentId;
            var t := Execute(s, StartSteps(r, w, at, ms, s.docs[d].status == Uploaded) +
                                [Save(r), AssertOwned(r)] + [Complete(r), Acknowledge(r)]);
            d in t.docs && t.docs[d].status == Completed && t.docs[d].attempts == s.docs[d].attempts + 1 &&
              t.docs[d].workerId.None? &&
            t.docs == s.docs[d := t.docs[d]] && t.derivatives == s.derivatives + {d} && t.runs == s.runs &&
            t.jobs == s.jobs[..i] + s.jobs[i + 1..]
  {
    var r, job := s.nextRun, Taken(s, w, at, ms, i);
    var run, jobs, d, n := Run(job, w, Claimed), s.jobs[i := job], job.documentId, s.docs[job.documentId].attempts + 1;
    var start := StartSteps(r, w, at, ms, s.docs[d].status == Uploaded);
    Starts(s, w, at, ms, i, run, jobs, s.docs[d], MarkedDoc(s, run, n));
    TakenIsHeld(s, w, at, ms, i);
    SavesAndAsserts(s, Execute(s, start), run, n, jobs, i, MarkedDoc(s, run, n), s.derivatives);
    ExecuteAppend(s, start, [Save(r), AssertOwned(r)]);
    CompletesAndAcknowledges(s, Execute(s, start + [Save(r), AssertOwned(r)]), run, n, jobs, i, s.derivatives + {d});
    ExecuteAppend(s, start + [Save(r), AssertOwned(r)], [Complete(r), Acknowledge(r)]);
    assert jobs[..i] + jobs[i + 1..] == s.jobs[..i] + s.jobs[i + 1..];
  }

  /** One second doubled by each attempt, and so on: what the policy makes of attempt n. */
  function RetryAt(policy: Policy, n: nat, now: int): int
    requires n >= 1
  {
    var delay := policy.initialDelayMs * PowerOfTwo(n - 1);
    now + if delay <= policy.maxDelayMs then delay else policy.maxDelayMs
  }

  lemma WritesOutcome(s: State, t: State, run: Run, n: nat, retryable: bool, jobs: seq<Job>, derivatives: set<string>)
    requires Reached(s, t, run.(point := Dropped(n, retryable)), jobs, MarkedDoc(s, run, n), derivatives) && n >= 1
    ensures var retried := retryable && n < s.policy.maxAttempts;
            var status := if retried then Queued else if retryable then Quarantined else Failed;
            Reached(s, Next(t, WriteOutcome(s.nextRun)),
                    run.(point := if retried then Releasing(RetryAt(s.policy, n, s.now)) else Acknowledging),
                    jobs, MarkedDoc(s, run, n).(status := status, workerId := None), derivatives)
  {
  }

  function ThrownDoc(s: State, run: Run, n: nat, retryable: bool): Document {
    var retried := retryable && n < s.policy.maxAttempts;
    MarkedDoc(s, run, n).(status := if retried then Queued else if retryable then Quarantined else Failed, workerId := None)
  }

  function ThrownPoint(s: State, n: nat, retryable: bool): Point
    requires n >= 1
  {
    if retryable && n < s.policy.maxAttempts then Releasing(RetryAt(s.policy, n, s.now)) else Acknowledging
  }

  function ThrowSteps(r: nat, retryable: bool): seq<Step> {
    [Throw(r, retryable), Drop(r), WriteOutcome(r)]
  }

  lemma FailsAndWrites(s: State, t: State, run: Run, n: nat, retryable: bool, jobs: seq<Job>, derivatives: set<string>)
    requires Reached(s, t, run.(point := Working(n)), jobs, MarkedDoc(s, run, n), derivatives) && n >= 1
    ensures Reached(s, Execute(t, ThrowSteps(s.nextRun, retryable)), run.(point := ThrownPoint(s, n, retryable)), jobs,
                    ThrownDoc(s, run, n, retryable), derivatives - {run.job.documentId})
  {
    var r := s.nextRun;
    Throws(s, t, run, n, retryable, jobs, MarkedDoc(s, run, n), derivatives);
    Drops(s, Next(t, Throw(r, retryable)), run, n, retryable, jobs, MarkedDoc(s, run, n), derivatives);
    WritesOutcome(s, Next(Next(t, Throw(r, retryable)), Drop(r)), run, n, retryable, jobs, derivatives - {run.job.documentId});
    ThreeSteps(t, Throw(r, retryable), Drop(r), WriteOutcome(r));
  }

  lemma ThrowingRun(s: State, w: string, at: int, ms: int, i: nat, retryable: bool, run: Run, jobs: seq<Job>, doc: Document)
    requires CanWork(s, w, at, ms, i) && run == Run(Taken(s, w, at, ms, i), w, Claimed)
    requires jobs == s.jobs[i := run.job] && doc == s.docs[run.job.documentId] && doc.status in {Uploaded, Queued, Processing}
    ensures var n := doc.attempts + 1;
            Reached(s, Execute(s, StartSteps(s.nextRun, w, at, ms, doc.status == Uploaded) + ThrowSteps(s.nextRun, retryable)),
                    run.(point := ThrownPoint(s, n, retryable)), jobs, ThrownDoc(s, run, n, retryable),
                      s.derivatives - {run.job.documentId})
  {
    var n := doc.attempts + 1;
    var start := StartSteps(s.nextRun, w, at, ms, doc.status == Uploaded);
    Starts(s, w, at, ms, i, run, jobs, doc, MarkedDoc(s, run, n));
    FailsAndWrites(s, Execute(s, start), run, n, retryable, jobs, s.derivatives);
    ReachedInTwo(s, start, ThrowSteps(s.nextRun, retryable), run.(point := ThrownPoint(s, n, retryable)), jobs,
                 ThrownDoc(s, run, n, retryable), s.derivatives - {run.job.documentId});
  }

  /** How a run ends whose processing threw in attempt n. */
  predicate EndsAfterThrow(s: State, t: State, i: nat, d: string, n: nat, retryable: bool)
    requires i < |s.jobs| && n >= 1
  {
    d in t.docs && t.docs == s.docs[d := t.docs[d]] && t.docs[d].attempts == n && t.docs[d].workerId.None? &&
    t.derivatives == s.derivatives - {d} && t.runs == s.runs &&
    if !retryable then t.docs[d].status == Failed && t.jobs == s.jobs[..i] + s.jobs[i + 1..]
    else if n >= s.policy.maxAttempts then t.docs[d].status == Quarantined && t.jobs == s.jobs[..i] + s.jobs[i + 1..]
    else
      t.docs[d].status == Queued && |t.jobs| == |s.jobs| && t.jobs == s.jobs[i := t.jobs[i]] &&
      t.jobs[i].documentId == d && t.jobs[i].id == s.jobs[i].id && t.jobs[i].fencingToken == s.jobs[i].fencingToken + 1 &&
      !t.jobs[i].claimed && t.jobs[i].availableAt == RetryAt(s.policy, n, s.now)
  }

  lemma EndsQueued(s: State, t: State, run: Run, i: nat, n: nat)
    requires i < |s.jobs| && n >= 1 && n < s.policy.maxAttempts && run.job.id == s.jobs[i].id
    requires run.job.fencingToken == s.jobs[i].fencingToken + 1 && Holds(s.jobs[i := run.job], i, run, s.now)
    requires Reached(s, t, run.(point := Releasing(RetryAt(s.policy, n, s.now))), s.jobs[i := run.job],
                     MarkedDoc(s, run, n).(status := Queued, workerId := None), s.derivatives - {run.job.documentId})
    ensures EndsAfterThrow(s, Next(t, Release(s.nextRun)), i, run.job.documentId, n, true)
  {
    Releases(s, t, run, RetryAt(s.policy, n, s.now), s.jobs[i := run.job], i, MarkedDoc(s, run, n).(status := Queued,
      workerId := None),
             s.derivatives - {run.job.documentId});
  }

  lemma EndsSettled(s: State, t: State, run: Run, i: nat, n: nat, retryable: bool)
    requires i < |s.jobs| && n >= 1 && (retryable ==> n >= s.policy.maxAttempts) && Holds(s.jobs[i := run.job], i, run, s.now)
    requires Reached(s, t, run.(point := Acknowledging), s.jobs[i := run.job],
                     MarkedDoc(s, run, n).(status := if retryable then Quarantined else Failed, workerId := None),
                     s.derivatives - {run.job.documentId})
    ensures EndsAfterThrow(s, Next(t, Acknowledge(s.nextRun)), i, run.job.documentId, n, retryable)
  {
    var jobs := s.jobs[i := run.job];
    Acknowledges(s, t, run, jobs, i, MarkedDoc(s, run, n).(status := if retryable then Quarantined else Failed, workerId := None),
                 s.derivatives - {run.job.documentId});
    assert jobs[..i] + jobs[i + 1..] == s.jobs[..i] + s.jobs[i + 1..];
  }

  /**
   * A run whose processing throws leaves no derivatives.  An error that cannot be retried fails the document, and
   * the last attempt quarantines it, both without a job; otherwise it is queued again, with a job that is
   * unclaimed and due after the initial delay doubled with every attempt, up to the maximal one.
   */
  lemma ThrowingRunEnds(s: State, w: string, at: int, ms: int, i: nat, retryable: bool)
    requires CanWork(s, w, at, ms, i) && DistinctIds(s.jobs) && s.docs[s.jobs[i].documentId].status in {Uploaded,
             Queued, Processing}
    ensures var r, d := s.nextRun, s.jobs[i].documentId;
            var n := s.docs[d].attempts + 1;
            var written := Execute(s, StartSteps(r, w, at, ms, s.docs[d].status == Uploaded) + ThrowSteps(r, retryable));
            var last := if retryable && n < s.policy.maxAttempts then Release(r) else Acknowledge(r);
            EndsAfterThrow(s, Next(written, last), i, d, n, retryable)
  {
    var r, job := s.nextRun, Taken(s, w, at, ms, i);
    var run, d, n := Run(job, w, Claimed), job.documentId, s.docs[job.documentId].attempts + 1;
    TakenIsHeld(s, w, at, ms, i);
    ThrowingRun(s, w, at, ms, i, retryable, run, s.jobs[i := job], s.docs[d]);
    var written := Execute(s, StartSteps(r, w, at, ms, s.docs[d].status == Uploaded) + ThrowSteps(r, retryable));
    if retryable && n < s.policy.maxAttempts {
      EndsQueued(s, written, run, i, n);
    } else {
      EndsSettled(s, written, run, i, n, retryable);
    }
  }

  /** A run that finds its document settled or gone leaves it alone and removes the job. */
  lemma SettledDocumentIsLeftAlone(s: State, w: string, at: int, ms: int, i: nat)
    requires CanWork(s, w, at, ms, i) && DistinctIds(s.jobs)
    requires s.docs[s.jobs[i].documentId].status in {Completed, Failed, Quarantined, Deleted}
    ensures var r := s.nextRun;
            var t := Next(Next(Next(s, Claim(w, at, ms)), Read(r)), Acknowledge(r));
            t.docs == s.docs && t.derivatives == s.derivatives && t.runs == s.runs && t.jobs == s.jobs[..i] + s.jobs[i + 1..]
  {
    var job := Taken(s, w, at, ms, i);
    var run, jobs, doc := Run(job, w, Claimed), s.jobs[i := job], s.docs[job.documentId];
    Begins(s, w, at, ms, i);
    TakenIsHeld(s, w, at, ms, i);
    Reads(s, Next(s, Claim(w, at, ms)), run, jobs, doc, s.derivatives);
    Acknowledges(s, Next(Next(s, Claim(w, at, ms)), Read(s.nextRun)), run, jobs, i, doc, s.derivatives);
    assert jobs[..i] + jobs[i + 1..] == s.jobs[..i] + s.jobs[i + 1..] && s.docs[job.documentId := doc] == s.docs;
  }

  /** A new document becomes QUEUED with a job of its own that can be claimed at once. */
  lemma UploadIsQueued(s: State, d: string, id: string)
    requires d !in s.docs && id !in s.issued && d !in s.submitted && forall job :: job in s.jobs ==> job.documentId != d
    ensures var t := Next(Next(Next(s, Create(d)), EnqueueUploaded(d, id)), MarkQueued(d));
            t.docs == s.docs[d := Document(Queued, 0, None, 0, None)] && t.jobs == s.jobs + [t.jobs[|s.jobs|]] &&
            t.jobs[|s.jobs|].documentId == d && t.jobs[|s.jobs|].id == id && Claimable(t.jobs[|s.jobs|], s.now) &&
            t.submitted == s.submitted
  {
    var made := Next(s, Create(d));
    assert IndexOfDocument(s.jobs, d).None?;
  }

  /** An upload whose document was taken out of UPLOADED meanwhile withdraws the document's jobs, twice, and nothing else. */
  lemma RefusedUploadWithdraws(s: State, d: string)
    requires d in s.submitted && d in s.docs && s.docs[d].status != Uploaded
    ensures var t := Next(s, MarkQueued(d));
            var u := Next(t, WithdrawAgain(d));
            t.submitted == s.submitted - {d} && t.withdrawn == s.withdrawn + {d} && u.submitted == t.submitted &&
              u.withdrawn == t.withdrawn - {d} &&
            t.docs == u.docs == s.docs && t.derivatives == u.derivatives == s.derivatives &&
            forall job :: (job in t.jobs <==> job in s.jobs && job.documentId != d) && (job in u.jobs <==> job in t.jobs)
  {
    RemovesExactly(s.jobs, d);
    RemovesExactly(Next(s, MarkQueued(d)).jobs, d);
  }

  /** A run whose COMPLETED write was refused deletes the derivatives and goes on as after a retryable error. */
  lemma RefusedCompletionCleansUp(s: State, t: State, run: Run, n: nat, jobs: seq<Job>, doc: Document, derivatives: set<string>)
    requires Reached(s, t, run.(point := Owned(n)), jobs, doc, derivatives)
    requires !(doc.status == Processing && doc.workerId == Some(run.workerId) && doc.token == run.job.fencingToken)
    ensures Reached(s, Next(Next(t, Complete(s.nextRun)), Drop(s.nextRun)), run.(point := Failing(n, true)), jobs, doc,
                    derivatives - {run.job.documentId})
  {
    assert Reached(s, Next(t, Complete(s.nextRun)), run.(point := Conflict(n)), jobs, doc, derivatives);
  }

  /** Renewing a running lease moves its end, and nothing else; a length that is not positive is refused. */
  lemma RenewalExtends(s: State, t: State, run: Run, jobs: seq<Job>, i: nat, doc: Document, derivatives: set<string>,
        leaseMs: int)
    requires Reached(s, t, run, jobs, doc, derivatives) && Holds(jobs, i, run, s.now)
    ensures var after := if leaseMs > 0 then jobs[i := run.job.(leaseExpiresAt := Some(s.now + leaseMs))] else jobs;
            Reached(s, Next(t, Renew(s.nextRun, leaseMs)), run, after, doc, derivatives)
  {
  }
}
