/**
 * What one step of the document worker leaves alone: the other runs and documents, the jobs other
 * runs hold, and the consistency of the queue file.
 *
 * The two questions the theorems ask of the queue are who still owns a job, lease or no lease
 * (`Owns`), and who owns one under a running lease (`HoldsLease`).  No step but a claim gives
 * either to anybody (`Narrows`), and a claim gives it to its own new run only.
 */
module DocumentSteps {
  import opened Wrappers
  import opened DocumentQueue
  import opened DocumentWorker
  import opened DocumentFence

  // ----- jobs and who holds them -----

  predicate HasJob(jobs: seq<Job>, d: string) {
    exists job :: job in jobs && job.documentId == d
  }

  /** The run still owns its job, lease or no lease: an acknowledgement or a release would pass. */
  predicate Owns(jobs: seq<Job>, run: Run) {
    exists job :: job in jobs && job.id == run.job.id && OwnedBy(job, run.workerId, Token(run))
  }

  /** The run owns its job under a running lease. */
  predicate HoldsLease(jobs: seq<Job>, run: Run, now: int) {
    exists job :: job in jobs && job.id == run.job.id && OwnedBy(job, run.workerId, Token(run)) && LeaseRunning(job, now)
  }

  /** Where a run stands does not matter for what it holds. */
  lemma SameHolder(jobs: seq<Job>, a: Run, b: Run, now: int)
    requires a.job == b.job && a.workerId == b.workerId
    ensures Owns(jobs, a) <==> Owns(jobs, b)
    ensures HoldsLease(jobs, a, now) <==> HoldsLease(jobs, b, now)
  {
  }

  /** `was` had the owner that `job` has, and its lease was running if that of `job` is. */
  predicate OwnedBefore(was: Job, job: Job, now: int) {
    was.id == job.id && was.claimed && was.workerId == job.workerId && was.fencingToken == job.fencingToken &&
    (LeaseRunning(job, now) ==> LeaseRunning(was, now))
  }

  /** Nobody gains a job. */
  ghost predicate Narrows(before: seq<Job>, after: seq<Job>, now: int) {
    forall job :: job in after && job.claimed ==> exists was :: was in before && OwnedBefore(was, job, now)
  }

  lemma NarrowsOwns(before: seq<Job>, after: seq<Job>, now: int, run: Run)
    requires Narrows(before, after, now)
    ensures Owns(after, run) ==> Owns(before, run)
    ensures HoldsLease(after, run, now) ==> HoldsLease(before, run, now)
  {
    if Owns(after, run) {
      var job :| job in after && job.id == run.job.id && OwnedBy(job, run.workerId, Token(run));
      var was :| was in before && OwnedBefore(was, job, now);
      assert OwnedBy(was, run.workerId, Token(run));
    }
    if HoldsLease(after, run, now) {
      var job :| job in after && job.id == run.job.id && OwnedBy(job, run.workerId, Token(run)) && LeaseRunning(job, now);
      var was :| was in before && OwnedBefore(was, job, now);
      assert OwnedBy(was, run.workerId, Token(run));
    }
  }

  lemma SubsetNarrows(before: seq<Job>, after: seq<Job>, now: int)
    requires forall job :: job in after && job.claimed ==> job in before
    ensures Narrows(before, after, now)
  {
    forall job | job in after && job.claimed
      ensures exists was :: was in before && OwnedBefore(was, job, now)
    {
      assert OwnedBefore(job, job, now);
    }
  }

  lemma UpdateNarrows(jobs: seq<Job>, i: nat, job: Job, now: int)
    requires i < |jobs| && (job.claimed ==> OwnedBefore(jobs[i], job, now))
    ensures Narrows(jobs, jobs[i := job], now)
  {
    var after := jobs[i := job];
    forall other | other in after && other.claimed
      ensures exists was :: was in jobs && OwnedBefore(was, other, now)
    {
      var k :| 0 <= k < |after| && after[k] == other;
      assert jobs[k] in jobs && OwnedBefore(jobs[k], other, now);
    }
  }

  lemma RenewNarrows(jobs: seq<Job>, id: string, w: string, token: nat, now: int, ms: int)
    ensures Narrows(jobs, AfterRenew(jobs, id, w, token, now, ms), now)
    ensures forall d :: HasJob(AfterRenew(jobs, id, w, token, now, ms), d) <==> HasJob(jobs, d)
  {
    var i := CheckLease(jobs, id, w, token, now);
    if i.Ok? {
      UpdateNarrows(jobs, i.value, jobs[i.value].(leaseExpiresAt := Some(now + ms)), now);
      UpdateKeepsJobs(jobs, i.value, jobs[i.value].(leaseExpiresAt := Some(now + ms)));
    } else {
      SubsetNarrows(jobs, jobs, now);
    }
  }

  lemma ReleaseNarrows(jobs: seq<Job>, id: string, w: string, token: nat, at: int, now: int)
    ensures Narrows(jobs, AfterRelease(jobs, id, w, token, at), now)
    ensures forall d :: HasJob(AfterRelease(jobs, id, w, token, at), d) <==> HasJob(jobs, d)
  {
    var i := CheckRelease(jobs, id, w, token);
    if i.Ok? {
      var job := jobs[i.value].(claimed := false, workerId := None, leaseExpiresAt := None, availableAt := at);
      UpdateNarrows(jobs, i.value, job, now);
      UpdateKeepsJobs(jobs, i.value, job);
    } else {
      SubsetNarrows(jobs, jobs, now);
    }
  }

  lemma UpdateKeepsJobs(jobs: seq<Job>, i: nat, job: Job)
    requires i < |jobs| && job.documentId == jobs[i].documentId
    ensures forall d :: HasJob(jobs[i := job], d) <==> HasJob(jobs, d)
  {
    var after := jobs[i := job];
    forall d
      ensures HasJob(after, d) <==> HasJob(jobs, d)
    {
      if HasJob(jobs, d) {
        var j :| j in jobs && j.documentId == d;
        var k :| 0 <= k < |jobs| && jobs[k] == j;
        assert after[k] in after;
      }
      if HasJob(after, d) {
        var j :| j in after && j.documentId == d;
        var k :| 0 <= k < |after| && after[k] == j;
        assert jobs[k] in jobs;
      }
    }
  }

  /** An acknowledgement that passes removes one job with the given id; any other leaves the queue alone. */
  lemma AcknowledgeNarrows(jobs: seq<Job>, id: string, w: string, token: nat, now: int)
    ensures Narrows(jobs, AfterAcknowledge(jobs, id, w, token), now)
  {
    SubsetNarrows(jobs, AfterAcknowledge(jobs, id, w, token), now);
  }

  lemma AcknowledgeKeepsOthers(jobs: seq<Job>, run: Run)
    ensures var after := AfterAcknowledge(jobs, run.job.id, run.workerId, Token(run));
            (!Owns(jobs, run) ==> after == jobs) &&
            forall d :: HasJob(jobs, d) ==> HasJob(after, d) || exists job :: job in jobs && job.id == run.job.id && job.documentId == d
  {
    var check := CheckAcknowledge(jobs, run.job.id, run.workerId, Token(run));
    var after := AfterAcknowledge(jobs, run.job.id, run.workerId, Token(run));
    if check.Ok? && check.value.Some? {
      var i := check.value.value;
      assert jobs[i] in jobs;
      forall d | HasJob(jobs, d)
        ensures HasJob(after, d) || exists job :: job in jobs && job.id == run.job.id && job.documentId == d
      {
        var job :| job in jobs && job.documentId == d;
        var k :| 0 <= k < |jobs| && jobs[k] == job;
        if k != i {
          assert after[if k < i then k else k - 1] == job;
        }
      }
    }
  }

  lemma RemovalNarrows(jobs: seq<Job>, d: string, now: int)
    ensures Narrows(jobs, WithoutDocument(jobs, d), now)
    ensures forall e :: e != d && HasJob(jobs, e) ==> HasJob(WithoutDocument(jobs, d), e)
    ensures !HasJob(WithoutDocument(jobs, d), d)
  {
    RemovesExactly(jobs, d);
    SubsetNarrows(jobs, WithoutDocument(jobs, d), now);
  }

  lemma EnqueuedHasJob(jobs: seq<Job>, d: string, id: string, now: int)
    ensures forall e :: HasJob(jobs, e) ==> HasJob(Enqueued(jobs, d, id, now), e)
    ensures HasJob(Enqueued(jobs, d, id, now), d)
  {
    var after := Enqueued(jobs, d, id, now);
    assert forall job :: job in jobs ==> job in after;
    var i := IndexOfDocument(jobs, d);
    assert after[if i.Some? then i.value else |jobs|] in after;
  }

  /** No step but a claim lets a run gain a job. */
  lemma RunStepNarrows(s: State, step: Step, r: nat)
    requires r in s.runs
    ensures Narrows(s.jobs, RunStep(s, step, r).jobs, s.now)
  {
    OthersKeepMark(s, step, r);
    EffectNarrows(s, r, EffectOf(s, step, r));
  }

  lemma CallNarrows(jobs: seq<Job>, call: Call, now: int)
    requires call.RenewCall? || call.ReleaseCall? || call.AcknowledgeCall?
    ensures Narrows(jobs, Apply(jobs, call, now), now)
  {
    if call.RenewCall? {
      RenewNarrows(jobs, call.id, call.workerId, call.token, now, call.leaseMs);
      SubsetNarrows(jobs, jobs, now);
    } else if call.ReleaseCall? {
      ReleaseNarrows(jobs, call.id, call.workerId, call.token, call.availableAt, now);
    } else {
      AcknowledgeNarrows(jobs, call.id, call.workerId, call.token, now);
    }
  }

  lemma EffectNarrows(s: State, r: nat, e: Effect)
    requires r in s.runs
    requires e.call.Some? ==> e.call.value.RenewCall? || e.call.value.ReleaseCall? || e.call.value.AcknowledgeCall?
    ensures Narrows(s.jobs, Applied(s, r, e).jobs, s.now)
  {
    if e.call.Some? {
      CallNarrows(s.jobs, e.call.value, s.now);
    } else {
      SubsetNarrows(s.jobs, s.jobs, s.now);
    }
  }

  /** The queue call of a service step that is not a claim. */
  function ServiceCall(s: State, step: Step): Option<Call> {
    match step
    case EnqueueUploaded(d, id) =>
      if IsStatus(s, d, {Uploaded}) && id !in s.issued && IndexOfDocument(s.jobs, d).None? then Some(EnqueueCall(d, id)) else None
    case EnqueueAgain(d, id) =>
      if IsStatus(s, d, {Queued, Completed, Failed, Quarantined}) && id !in s.issued then Some(EnqueueCall(d, id)) else None
    case MarkQueued(d) => if d in s.submitted && !IsStatus(s, d, {Uploaded}) then Some(RemoveCall(d)) else None
    case WithdrawAgain(d) =>
      if d in s.withdrawn && d in s.docs && s.docs[d].status != Uploaded then Some(RemoveCall(d)) else None
    case RemoveJobs(d) => if IsStatus(s, d, {Deleted}) then Some(RemoveCall(d)) else None
    case _ => None
  }

  lemma ServiceCalls(s: State, step: Step)
    requires !step.Claim?
    ensures ServiceStep(s, step).jobs == if ServiceCall(s, step).Some? then Apply(s.jobs, ServiceCall(s, step).value, s.now) else s.jobs
  {
  }

  lemma ServiceNarrows(s: State, step: Step)
    requires !step.Claim?
    ensures Narrows(s.jobs, ServiceStep(s, step).jobs, s.now)
  {
    ServiceCalls(s, step);
    SubsetNarrows(s.jobs, s.jobs, s.now);
    match ServiceCall(s, step)
    case Some(EnqueueCall(d, id)) => SubsetNarrows(s.jobs, Enqueued(s.jobs, d, id, s.now), s.now);
    case Some(RemoveCall(d)) => RemovalNarrows(s.jobs, d, s.now);
    case None =>
  }

  /** The job a claim gets, if it gets one. */
  function ClaimedJob(s: State, step: Step): (r: Option<nat>)
    requires step.Claim?
    ensures r.Some? ==> r.value < |s.jobs|
  {
    if step.leaseMs <= 0 || s.now < step.at then None else OldestClaimable(s.jobs, step.at, |s.jobs|)
  }

  /** A run that exists already gains nothing by a claim. */
  lemma ClaimGainsNothing(s: State, i: nat, job: Job, run: Run)
    requires i < |s.jobs| && job.id == s.jobs[i].id
    requires run.job.id == job.id ==> Token(run) < job.fencingToken
    ensures Owns(s.jobs[i := job], run) ==> Owns(s.jobs, run)
    ensures HoldsLease(s.jobs[i := job], run, s.now) ==> HoldsLease(s.jobs, run, s.now)
  {
    var after := s.jobs[i := job];
    forall held | held in after && held.id == run.job.id && OwnedBy(held, run.workerId, Token(run))
      ensures held in s.jobs
    {
      var k :| 0 <= k < |after| && after[k] == held;
      assert k != i;
      assert s.jobs[k] == held;
    }
  }

  // ----- the queue file -----

  /** Every step touches the queue by one of its calls, so the file stays consistent. */
  lemma StepKeepsFile(s: State, step: Step)
    requires FileConsistent(s.jobs)
    ensures FileConsistent(Next(s, step).jobs)
  {
    if IsRunStep(step) {
      if step.run in s.runs { RunStepKeepsFile(s, step, step.run); }
    } else {
      ServiceKeepsFile(s, step);
    }
  }

  lemma ServiceKeepsFile(s: State, step: Step)
    requires FileConsistent(s.jobs)
    ensures FileConsistent(ServiceStep(s, step).jobs)
  {
    if step.Claim? {
      ApplyKeeps(s.jobs, ClaimCall(step.workerId, step.at, step.leaseMs), s.now);
    } else {
      ServiceCalls(s, step);
      if ServiceCall(s, step).Some? { ApplyKeeps(s.jobs, ServiceCall(s, step).value, s.now); }
    }
  }

  lemma RunStepKeepsFile(s: State, step: Step, r: nat)
    requires FileConsistent(s.jobs) && r in s.runs
    ensures FileConsistent(RunStep(s, step, r).jobs)
  {
    var e := EffectOf(s, step, r);
    if e.call.Some? {
      ApplyKeeps(s.jobs, e.call.value, s.now);
    }
  }

  // ----- runs of steps -----

  lemma {:induction false} ExecuteAppend(s: State, a: seq<Step>, b: seq<Step>)
    ensures Execute(s, a + b) == Execute(Execute(s, a), b)
    decreases |a|
  {
    if a == [] {
      assert a + b == b;
    } else {
      assert (a + b)[1..] == a[1..] + b;
      ExecuteAppend(Next(s, a[0]), a[1..], b);
    }
  }

  lemma ExecuteOne(s: State, step: Step)
    ensures Execute(s, [step]) == Next(s, step)
  {
    assert [step][1..] == [];
    assert Execute(Next(s, step), []) == Next(s, step);
  }
}
