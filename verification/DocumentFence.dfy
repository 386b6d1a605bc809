/**
 * What the fence of the document worker guarantees.  The guard compares the pair (worker id,
 * token) with the document's latest PROCESSING mark.  Tokens restart for every new job, so the
 * pair names one run exactly among the runs of one job; among runs of different jobs it does so
 * when runs of one worker id never overlap.
 *
 * The invariant `Inv`: a queued job carries the latest token issued for its id; what a run or a
 * PROCESSING mark holds was issued to it; and a claim (job, token) belongs to one run only.  Steps
 * that leave every claim alone keep it for one common reason (`SameClaims`).
 */
module DocumentFence {
  import opened Wrappers
  import opened DocumentQueue
  import opened DocumentWorker

  ghost predicate JobsIssued(s: State) {
    && DistinctIds(s.jobs)
    && (forall job :: job in s.jobs ==>
          job.id in s.issued && s.issued[job.id] == Issue(job.documentId, job.fencingToken))
  }

  ghost predicate RunIssued(s: State, r: nat)
    requires r in s.runs
  {
    var run := s.runs[r];
    && r < s.nextRun
    && run.job.id in s.issued
    && run.job.documentId == s.issued[run.job.id].documentId
    && run.job.fencingToken <= s.issued[run.job.id].token
  }

  ghost predicate MarkIssued(s: State, d: string)
    requires d in s.docs
  {
    var doc := s.docs[d];
    match doc.mark
    case None => doc.workerId.None?
    case Some(m) =>
      && m.run < s.nextRun
      && m.job in s.issued
      && m.token <= s.issued[m.job].token
      && doc.token == m.token
      && (doc.workerId.Some? ==> doc.workerId == Some(m.workerId))
  }

  /** The claim (job, token) determines the run, for active runs and for marks. */
  predicate SameClaim(run: Run, job: string, token: nat) {
    run.job.id == job && run.job.fencingToken == token
  }

  ghost predicate ClaimsUnique(s: State) {
    && (forall r, q :: r in s.runs && q in s.runs && SameClaim(s.runs[r], s.runs[q].job.id, s.runs[q].job.fencingToken) ==> r == q)
    && (forall r, d :: r in s.runs && d in s.docs && s.docs[d].mark.Some? &&
          SameClaim(s.runs[r], s.docs[d].mark.value.job, s.docs[d].mark.value.token)
          ==> s.docs[d].mark.value.run == r)
  }

  /** A mark that names an active run was made for that run's job. */
  ghost predicate MarksTrue(s: State) {
    forall r, d :: r in s.runs && d in s.docs && s.docs[d].mark.Some? && s.docs[d].mark.value.run == r ==>
      s.docs[d].mark.value.job == s.runs[r].job.id
  }

  ghost predicate Inv(s: State) {
    && JobsIssued(s)
    && (forall r :: r in s.runs ==> RunIssued(s, r))
    && (forall d :: d in s.docs ==> MarkIssued(s, d))
    && ClaimsUnique(s)
  }

  lemma WithoutDocumentIssued(s: State, d: string)
    requires JobsIssued(s)
    ensures JobsIssued(s.(jobs := WithoutDocument(s.jobs, d)))
  {
    RemovalKeepsIds(s.jobs, d);
    RemovesExactly(s.jobs, d);
  }

  lemma UpdatedIssued(s: State, i: nat, job: Job)
    requires JobsIssued(s) && i < |s.jobs|
    requires job.id == s.jobs[i].id && job.documentId == s.jobs[i].documentId
    ensures JobsIssued(s.(jobs := s.jobs[i := job], issued := s.issued[job.id := Issue(job.documentId, job.fencingToken)]))
  {
    var jobs := s.jobs[i := job];
    forall j | j in jobs && j != job ensures j.id != job.id && j in s.jobs {
      var k :| 0 <= k < |jobs| && jobs[k] == j;
      assert k != i && s.jobs[k] == j;
    }
  }

  lemma SameTokenIssued(s: State, i: nat, job: Job)
    requires JobsIssued(s) && i < |s.jobs|
    requires job.id == s.jobs[i].id && job.documentId == s.jobs[i].documentId && job.fencingToken == s.jobs[i].fencingToken
    ensures JobsIssued(s.(jobs := s.jobs[i := job]))
  {
    UpdatedIssued(s, i, job);
    assert s.jobs[i] in s.jobs;
    assert s.issued[job.id := Issue(job.documentId, job.fencingToken)] == s.issued;
  }

  lemma RenewIssued(s: State, id: string, w: string, token: nat, ms: int)
    requires JobsIssued(s)
    ensures JobsIssued(s.(jobs := AfterRenew(s.jobs, id, w, token, s.now, ms)))
  {
    var renew := CheckLease(s.jobs, id, w, token, s.now);
    if renew.Ok? {
      SameTokenIssued(s, renew.value, s.jobs[renew.value].(leaseExpiresAt := Some(s.now + ms)));
    }
  }

  lemma ReleaseIssued(s: State, id: string, w: string, token: nat, at: int)
    requires JobsIssued(s)
    ensures JobsIssued(s.(jobs := AfterRelease(s.jobs, id, w, token, at)))
  {
    var release := CheckRelease(s.jobs, id, w, token);
    if release.Ok? {
      SameTokenIssued(s, release.value,
        s.jobs[release.value].(claimed := false, workerId := None, leaseExpiresAt := None, availableAt := at));
    }
  }

  lemma AcknowledgeIssued(s: State, id: string, w: string, token: nat)
    requires JobsIssued(s)
    ensures JobsIssued(s.(jobs := AfterAcknowledge(s.jobs, id, w, token)))
  {
    var acknowledge := CheckAcknowledge(s.jobs, id, w, token);
    if acknowledge.Ok? && acknowledge.value.Some? {
      var i := acknowledge.value.value;
      assert forall job :: job in s.jobs[..i] + s.jobs[i + 1..] ==> job in s.jobs;
    }
  }

  /** The queue calls a run makes keep the jobs issued. */
  lemma CallIssued(s: State, call: Call)
    requires JobsIssued(s) && (call.RenewCall? || call.ReleaseCall? || call.AcknowledgeCall?)
    ensures JobsIssued(s.(jobs := Apply(s.jobs, call, s.now)))
  {
    if call.RenewCall? {
      RenewIssued(s, call.id, call.workerId, call.token, call.leaseMs);
    } else if call.ReleaseCall? {
      ReleaseIssued(s, call.id, call.workerId, call.token, call.availableAt);
    } else {
      AcknowledgeIssued(s, call.id, call.workerId, call.token);
    }
  }

  lemma EffectIssued(s: State, r: nat, e: Effect)
    requires JobsIssued(s) && r in s.runs
    requires e.call.Some? ==> e.call.value.RenewCall? || e.call.value.ReleaseCall? || e.call.value.AcknowledgeCall?
    ensures JobsIssued(Applied(s, r, e))
  {
    if e.call.Some? {
      CallIssued(s, e.call.value);
    }
  }

  lemma EnqueueKeeps(s: State, d: string, id: string)
    requires Inv(s)
    ensures Inv(EnqueueJob(s, d, id))
    ensures MarksTrue(s) ==> MarksTrue(EnqueueJob(s, d, id))
  {
    var t := EnqueueJob(s, d, id);
    if t != s {
      assert forall job :: job in t.jobs ==> job in s.jobs || job == t.jobs[|s.jobs|];
      assert forall job :: job in s.jobs ==> job.id != id;
      assert forall k :: 0 <= k < |s.jobs| ==> s.jobs[k] in s.jobs;
    }
  }

  /** The state after a new run has claimed job i as `job`. */
  function WithClaim(s: State, i: nat, job: Job, w: string): State
    requires i < |s.jobs|
  {
    s.(jobs := s.jobs[i := job], runs := s.runs[s.nextRun := Run(job, w, Claimed)], nextRun := s.nextRun + 1,
       issued := s.issued[job.id := Issue(job.documentId, job.fencingToken)])
  }

  /** A run that claims job i carries a token no run or mark had. */
  lemma ClaimedUnique(s: State, i: nat, job: Job, w: string)
    requires Inv(s) && i < |s.jobs| && job.id == s.jobs[i].id && job.fencingToken == s.jobs[i].fencingToken + 1
    ensures ClaimsUnique(WithClaim(s, i, job, w)) && (MarksTrue(s) ==> MarksTrue(WithClaim(s, i, job, w)))
  {
    assert s.jobs[i] in s.jobs;
    assert forall r :: r in s.runs ==> RunIssued(s, r);
    assert forall d :: d in s.docs ==> MarkIssued(s, d);
  }

  lemma ClaimedKeeps(s: State, i: nat, job: Job, w: string)
    requires Inv(s) && i < |s.jobs| && job.id == s.jobs[i].id && job.documentId == s.jobs[i].documentId
    requires job.fencingToken == s.jobs[i].fencingToken + 1
    ensures Inv(WithClaim(s, i, job, w)) && (MarksTrue(s) ==> MarksTrue(WithClaim(s, i, job, w)))
  {
    var t := WithClaim(s, i, job, w);
    assert s.jobs[i] in s.jobs;
    ClaimedUnique(s, i, job, w);
    UpdatedIssued(s, i, job);
    forall r | r in t.runs ensures RunIssued(t, r) { assert r in s.runs ==> RunIssued(s, r); }
    forall d | d in t.docs ensures MarkIssued(t, d) { assert MarkIssued(s, d); }
  }

  lemma ClaimKeeps(s: State, w: string, at: int, ms: int)
    requires Inv(s)
    ensures Inv(ServiceStep(s, Claim(w, at, ms)))
    ensures MarksTrue(s) ==> MarksTrue(ServiceStep(s, Claim(w, at, ms)))
  {
    var i := OldestClaimable(s.jobs, at, |s.jobs|);
    if ms > 0 && s.now >= at && i.Some? {
      ClaimedKeeps(s, i.value, ClaimedBy(s.jobs[i.value], w, at, ms), w);
    }
  }

  /** A step that neither claims nor marks: runs keep their claims and documents their marks. */
  ghost predicate SameClaims(s: State, t: State) {
    && t.nextRun == s.nextRun && t.issued == s.issued
    && (forall r :: r in t.runs ==> r in s.runs && t.runs[r].job == s.runs[r].job && t.runs[r].workerId == s.runs[r].workerId)
    && (forall d :: d in t.docs && d in s.docs ==>
          && t.docs[d].mark == s.docs[d].mark
          && t.docs[d].token == s.docs[d].token
          && (t.docs[d].workerId == s.docs[d].workerId || t.docs[d].workerId.None?))
    && (forall d :: d in t.docs && d !in s.docs ==> t.docs[d].mark.None? && t.docs[d].workerId.None?)
  }

  lemma SameClaimsKeep(s: State, t: State)
    requires Inv(s) && SameClaims(s, t) && JobsIssued(t)
    ensures Inv(t)
    ensures MarksTrue(s) ==> MarksTrue(t)
  {
    forall r | r in t.runs ensures RunIssued(t, r) { assert RunIssued(s, r); }
    forall d | d in t.docs ensures MarkIssued(t, d) { assert d in s.docs ==> MarkIssued(s, d); }
  }

  /** The effect leaves its document's mark and token alone, and its worker id alone or cleared. */
  predicate KeepsMark(doc: Option<Document>, e: Effect) {
    e.doc.Some? ==>
      doc.Some? && e.doc.value.mark == doc.value.mark && e.doc.value.token == doc.value.token &&
      (e.doc.value.workerId == doc.value.workerId || e.doc.value.workerId.None?)
  }

  /** Every step of a run but the PROCESSING mark. */
  lemma OthersKeepMark(s: State, step: Step, r: nat)
    requires r in s.runs
    ensures var e := EffectOf(s, step, r);
            (!step.MarkProcessing? ==> KeepsMark(DocumentOf(s, s.runs[r].job.documentId), e)) &&
            (e.call.Some? ==> e.call.value.RenewCall? || e.call.value.ReleaseCall? || e.call.value.AcknowledgeCall?)
  {
  }

  lemma AppliedSameClaims(s: State, r: nat, e: Effect)
    requires r in s.runs && KeepsMark(DocumentOf(s, s.runs[r].job.documentId), e)
    ensures SameClaims(s, Applied(s, r, e))
  {
  }

  lemma QuietStatus(s: State, d: string, status: Status)
    requires d in s.docs
    ensures SameClaims(s, s.(docs := s.docs[d := s.docs[d].(status := status, workerId := None)]))
  {
  }

  lemma QuietCreate(s: State, d: string)
    ensures SameClaims(s, ServiceStep(s, Create(d)))
  {
  }

  lemma UploadKeeps(s: State, d: string, id: string)
    requires Inv(s)
    ensures Inv(ServiceStep(s, EnqueueUploaded(d, id)))
    ensures MarksTrue(s) ==> MarksTrue(ServiceStep(s, EnqueueUploaded(d, id)))
  {
    EnqueueKeeps(s, d, id);
    SameClaimsKeep(EnqueueJob(s, d, id), EnqueueJob(s, d, id).(submitted := s.submitted + {d}));
  }

  lemma ServiceKeeps(s: State, step: Step)
    requires Inv(s) && !IsRunStep(step)
    ensures Inv(ServiceStep(s, step))
    ensures MarksTrue(s) ==> MarksTrue(ServiceStep(s, step))
  {
    var t := ServiceStep(s, step);
    match step
    case EnqueueUploaded(d, id) => UploadKeeps(s, d, id);
    case EnqueueAgain(d, id) => EnqueueKeeps(s, d, id);
    case Claim(w, at, ms) => ClaimKeeps(s, w, at, ms);
    case _ => QuietServiceStep(s, step); SameClaimsKeep(s, t);
  }

  lemma QuietQueued(s: State, d: string)
    requires JobsIssued(s)
    ensures SameClaims(s, ServiceStep(s, MarkQueued(d))) && JobsIssued(ServiceStep(s, MarkQueued(d)))
  {
    if IsStatus(s, d, {Uploaded}) {
      QuietStatus(s, d, Queued);
    } else {
      WithoutDocumentIssued(s, d);
    }
  }

  lemma QuietRemoval(s: State, d: string)
    requires JobsIssued(s)
    ensures SameClaims(s, ServiceStep(s, RemoveJobs(d))) && JobsIssued(ServiceStep(s, RemoveJobs(d)))
  {
    WithoutDocumentIssued(s, d);
  }

  lemma QuietServiceStep(s: State, step: Step)
    requires JobsIssued(s)
    requires step.MarkQueued? || step.WithdrawAgain? || step.RemoveJobs? || step.Tick? || step.Create? || step.Requeue? || step.Delete?
    ensures SameClaims(s, ServiceStep(s, step)) && JobsIssued(ServiceStep(s, step))
  {
    match step
    case Create(d) => QuietCreate(s, d);
    case MarkQueued(d) => QuietQueued(s, d);
    case RemoveJobs(d) => QuietRemoval(s, d);
    case WithdrawAgain(d) => WithoutDocumentIssued(s, d);
    case Requeue(d) => if d in s.docs { QuietStatus(s, d, Queued); }
    case Delete(d) => if d in s.docs { QuietStatus(s, d, Deleted); }
    case Tick(_) =>
  }

  lemma MarkingKeeps(s: State, r: nat, e: Effect)
    requires Inv(s) && r in s.runs
    requires e == MarkEffect(r, s.runs[r], DocumentOf(s, s.runs[r].job.documentId))
    ensures Inv(Applied(s, r, e))
    ensures MarksTrue(s) ==> MarksTrue(Applied(s, r, e))
  {
    if e.doc.Some? {
      Marked(s, r, e.doc.value);
    } else {
      AppliedSameClaims(s, r, e);
      EffectIssued(s, r, e);
      SameClaimsKeep(s, Applied(s, r, e));
    }
  }

  lemma Marked(s: State, r: nat, doc: Document)
    requires Inv(s) && r in s.runs && s.runs[r].job.documentId in s.docs
    requires doc.mark == Some(Mark(r, s.runs[r].job.id, s.runs[r].workerId, Token(s.runs[r])))
    requires doc.workerId == Some(s.runs[r].workerId) && doc.token == Token(s.runs[r])
    ensures var t := Applied(s, r, MoveTo(Working(doc.attempts)).(doc := Some(doc)));
            Inv(t) && (MarksTrue(s) ==> MarksTrue(t))
  {
    var d := s.runs[r].job.documentId;
    var moved := Applied(s, r, MoveTo(Working(doc.attempts)));
    AppliedSameClaims(s, r, MoveTo(Working(doc.attempts)));
    SameClaimsKeep(s, moved);
    var t := Applied(s, r, MoveTo(Working(doc.attempts)).(doc := Some(doc)));
    assert RunIssued(moved, r);
    forall q | q in t.runs ensures RunIssued(t, q) { assert RunIssued(moved, q); }
    forall e | e in t.docs ensures MarkIssued(t, e) { assert e != d ==> MarkIssued(moved, e); }
    forall q, e | q in t.runs && e in t.docs && t.docs[e].mark.Some? &&
                  SameClaim(t.runs[q], t.docs[e].mark.value.job, t.docs[e].mark.value.token)
      ensures t.docs[e].mark.value.run == q
    {
      if e == d { assert SameClaim(moved.runs[q], moved.runs[r].job.id, moved.runs[r].job.fencingToken); }
    }
  }

  lemma QuietRunStep(s: State, step: Step, r: nat)
    requires !step.MarkProcessing? && r in s.runs
    ensures SameClaims(s, RunStep(s, step, r))
  {
    OthersKeepMark(s, step, r);
    AppliedSameClaims(s, r, EffectOf(s, step, r));
  }

  lemma RunKeeps(s: State, step: Step, r: nat)
    requires Inv(s) && r in s.runs
    ensures Inv(RunStep(s, step, r))
    ensures MarksTrue(s) ==> MarksTrue(RunStep(s, step, r))
  {
    var e := EffectOf(s, step, r);
    if step.MarkProcessing? {
      MarkingKeeps(s, r, e);
    } else {
      OthersKeepMark(s, step, r);
      EffectIssued(s, r, e);
      AppliedSameClaims(s, r, e);
      SameClaimsKeep(s, Applied(s, r, e));
    }
  }

  lemma StepKeepsInv(s: State, step: Step)
    requires Inv(s) && MarksTrue(s)
    ensures Inv(Next(s, step)) && MarksTrue(Next(s, step))
  {
    if !IsRunStep(step) {
      ServiceKeeps(s, step);
    } else if step.run in s.runs {
      RunKeeps(s, step, step.run);
    }
  }

  lemma {:induction false} ExecuteKeeps(s: State, steps: seq<Step>)
    requires Inv(s) && MarksTrue(s)
    ensures Inv(Execute(s, steps)) && MarksTrue(Execute(s, steps))
    decreases |steps|
  {
    if steps != [] {
      StepKeepsInv(s, steps[0]);
      ExecuteKeeps(Next(s, steps[0]), steps[1..]);
    }
  }

  /**
   * In every run: if the guard lets a run write its outcome, the document's latest mark carries
   * the run's own (worker id, token), and is the run's own mark unless it was made for another job.
   */
  lemma FenceIsThePair(now: int, policy: Policy, steps: seq<Step>, r: nat)
    requires r in Execute(Initial(now, policy), steps).runs
    requires GuardPasses(Execute(Initial(now, policy), steps), Execute(Initial(now, policy), steps).runs[r])
    ensures var s := Execute(Initial(now, policy), steps);
            var run := s.runs[r];
            var doc := s.docs[run.job.documentId];
            doc.mark.Some? && doc.mark.value.workerId == run.workerId && doc.mark.value.token == run.job.fencingToken &&
            (doc.mark.value.run == r <==> doc.mark.value.job == run.job.id)
  {
    ExecuteKeeps(Initial(now, policy), steps);
    var s := Execute(Initial(now, policy), steps);
    assert MarkIssued(s, s.runs[r].job.documentId);
  }
}
