/**
 * "A COMPLETED document has its text and chunks."  The worker's catch block deletes them without a
 * guard, so this fails once a claim `TakesOver`: once a run can finish a document that another live
 * run, stalled or not, may still clean up after.  In every run without such a claim it holds, however
 * leases lapse, workers crash and documents are uploaded, retried or deleted; and after such a claim
 * the derivatives can be lost without any further claim.  So the condition is exact.
 */
module DocumentDerivatives {
  import opened Wrappers
  import opened DocumentQueue
  import opened DocumentWorker
  import opened DocumentFence
  import opened DocumentSteps

  // The reason is `Alone`: as long as no claim takes over, of two live runs of one document neither holds a
  // running lease, and the one that was past its last lease check no longer passes the guard once the other
  // has marked the document.

  ghost predicate CompletedHasDerivatives(s: State) {
    forall d :: IsStatus(s, d, {Completed}) ==> d in s.derivatives
  }

  /** Past its PROCESSING mark and before its outcome: an error makes the run delete the derivatives. */
  predicate MayDelete(point: Point) {
    point.Working? || point.SavedOutput? || point.Owned? || point.Conflict? || point.Failing?
  }

  /** The document is not deleted, and the run may come to delete its derivatives. */
  predicate Live(s: State, r: nat)
    requires r in s.runs
  {
    var d, point := s.runs[r].job.documentId, s.runs[r].point;
    d in s.docs && s.docs[d].status != Deleted &&
    (point.Claimed? || point.Ready? || MayDelete(point) || (point.SawUploaded? && s.docs[d].status == Uploaded))
  }

  predicate SameDocument(s: State, r: nat, q: nat)
    requires r in s.runs && q in s.runs
  {
    s.runs[r].job.documentId == s.runs[q].job.documentId
  }

  predicate SamePair(run: Run, workerId: string, token: nat) {
    run.workerId == workerId && Token(run) == token
  }

  /**
   * A claim of a job whose document a live run may still clean up after.  If the claim's lease has
   * lapsed before it gets through, its run cannot finish the document; then the claim does harm only
   * if the other run is past its last lease check and the claim was given the same (worker id, token).
   */
  ghost predicate TakesOver(s: State, step: Step) {
    step.Claim? && ClaimedJob(s, step).Some? &&
    var job := s.jobs[ClaimedJob(s, step).value];
    exists r :: r in s.runs && Live(s, r) && s.runs[r].job.documentId == job.documentId &&
      (s.now < step.at + step.leaseMs || (s.runs[r].point.Owned? && SamePair(s.runs[r], step.workerId, job.fencingToken + 1)))
  }

  ghost predicate NoTakeover(s: State, steps: seq<Step>)
    decreases |steps|
  {
    steps == [] || (!TakesOver(s, steps[0]) && NoTakeover(Next(s, steps[0]), steps[1..]))
  }

  // ----- the invariant -----

  /** Run r cannot finish the document behind the back of run q. */
  predicate Harmless(s: State, r: nat, q: nat)
    requires r in s.runs && q in s.runs
  {
    !HoldsLease(s.jobs, s.runs[r], s.now) &&
    (s.runs[r].point.Owned? ==>
       !s.runs[q].point.Owned? && !SamePair(s.runs[q], s.runs[r].workerId, Token(s.runs[r])) &&
       (MayDelete(s.runs[q].point) ==> !GuardPasses(s, s.runs[r])))
  }

  ghost predicate Alone(s: State) {
    forall r, q :: r in s.runs && q in s.runs && r != q && SameDocument(s, r, q) && Live(s, r) && Live(s, q) ==> Harmless(s, r, q)
  }

  /** A live run never stands before a COMPLETED document, and what it can still finish has derivatives. */
  predicate RunOk(s: State, r: nat)
    requires r in s.runs
  {
    var run, d := s.runs[r], s.runs[r].job.documentId;
    Live(s, r) ==>
      && (run.point.Ready? ==> s.docs[d].status != Uploaded)
      && (MayDelete(run.point) ==> s.docs[d].status != Completed)
      && (run.point.SavedOutput? && HoldsLease(s.jobs, run, s.now) ==> d in s.derivatives)
      && (run.point.Owned? && GuardPasses(s, run) ==> d in s.derivatives)
  }

  ghost predicate DocumentsKnown(s: State) {
    forall id :: id in s.issued ==> s.issued[id].documentId in s.docs
  }

  ghost predicate HandsInv(s: State) {
    CompletedHasDerivatives(s) && Alone(s) && forall r :: r in s.runs ==> RunOk(s, r)
  }

  ghost predicate AllInv(s: State) {
    Inv(s) && MarksTrue(s) && FileConsistent(s.jobs) && DocumentsKnown(s) && HandsInv(s)
  }

  // ----- steps that leave the runs alone -----

  /** A document that a service step touches has no worker afterwards and is QUEUED or DELETED; none comes back. */
  predicate CalmDocument(before: Document, after: Document) {
    after == before || (after.workerId.None? && after.status in {Queued, Deleted} && before.status != Deleted)
  }

  ghost predicate CalmDocuments(s: State, t: State) {
    && (forall d :: d in s.docs ==> d in t.docs && CalmDocument(s.docs[d], t.docs[d]))
    && (forall d :: d in t.docs && d !in s.docs ==> t.docs[d].status == Uploaded)
  }

  lemma CalmKeepsHands(s: State, t: State)
    requires HandsInv(s) && t.runs == s.runs && t.derivatives == s.derivatives && CalmDocuments(s, t)
    requires forall r :: r in s.runs ==>
               s.runs[r].job.documentId in s.docs && (HoldsLease(t.jobs, s.runs[r], t.now) ==> HoldsLease(s.jobs, s.runs[r], s.now))
    ensures HandsInv(t)
  {
    forall r | r in t.runs
      ensures Live(t, r) ==> Live(s, r)
      ensures GuardPasses(t, t.runs[r]) ==> GuardPasses(s, s.runs[r])
      ensures RunOk(t, r)
    {
      assert s.runs[r].job.documentId in s.docs;
      assert RunOk(s, r);
    }
    forall r, q | r in t.runs && q in t.runs && r != q && SameDocument(t, r, q) && Live(t, r) && Live(t, q)
      ensures Harmless(t, r, q)
    {
      assert Harmless(s, r, q);
    }
  }

  lemma LaterLeases(jobs: seq<Job>, run: Run, now: int, later: int)
    requires now <= later
    ensures HoldsLease(jobs, run, later) ==> HoldsLease(jobs, run, now)
  {
    if HoldsLease(jobs, run, later) {
      var job :| job in jobs && job.id == run.job.id && OwnedBy(job, run.workerId, Token(run)) && LeaseRunning(job, later);
      assert LeaseRunning(job, now);
    }
  }

  lemma ServiceLeases(s: State, step: Step, run: Run)
    requires !step.Claim?
    ensures s.now <= ServiceStep(s, step).now
    ensures HoldsLease(ServiceStep(s, step).jobs, run, ServiceStep(s, step).now) ==> HoldsLease(s.jobs, run, s.now)
  {
    ServiceNarrows(s, step);
    LaterLeases(ServiceStep(s, step).jobs, run, s.now, ServiceStep(s, step).now);
    NarrowsOwns(s.jobs, ServiceStep(s, step).jobs, s.now, run);
  }

  lemma ServiceRuns(s: State, step: Step)
    requires !step.Claim?
    ensures ServiceStep(s, step).runs == s.runs && ServiceStep(s, step).derivatives == s.derivatives
  {
  }

  lemma ServiceDocuments(s: State, step: Step)
    requires !step.Claim?
    ensures CalmDocuments(s, ServiceStep(s, step))
  {
  }

  lemma ServiceKeepsHands(s: State, step: Step)
    requires AllInv(s) && !step.Claim?
    ensures HandsInv(ServiceStep(s, step))
  {
    ServiceRuns(s, step);
    ServiceDocuments(s, step);
    forall r | r in s.runs
      ensures s.runs[r].job.documentId in s.docs
      ensures HoldsLease(ServiceStep(s, step).jobs, s.runs[r], ServiceStep(s, step).now) ==> HoldsLease(s.jobs, s.runs[r], s.now)
    {
      assert RunIssued(s, r);
      ServiceLeases(s, step, s.runs[r]);
    }
    CalmKeepsHands(s, ServiceStep(s, step));
  }

  // ----- claims -----

  /** When a job can be claimed, no run holds a running lease on it or on another job of its document. */
  lemma NobodyHolds(s: State, i: nat, at: int, r: nat)
    requires JobsIssued(s) && FileConsistent(s.jobs) && i < |s.jobs| && at <= s.now && Claimable(s.jobs[i], at)
    requires r in s.runs && RunIssued(s, r) && s.runs[r].job.documentId == s.jobs[i].documentId
    ensures !HoldsLease(s.jobs, s.runs[r], s.now)
  {
  }

  /** A claim whose lease has lapsed already gives no lease. */
  lemma LapsedClaim(s: State, i: nat, job: Job, run: Run)
    requires i < |s.jobs| && DistinctIds(s.jobs) && job.id == s.jobs[i].id && run.job.id == job.id
    requires job.leaseExpiresAt.Some? && job.leaseExpiresAt.value <= s.now
    ensures !HoldsLease(s.jobs[i := job], run, s.now)
  {
  }

  /** A new run of job i joins; any live run of the same document is harmless to it, and it to them. */
  lemma NewRunKeepsHands(s: State, i: nat, job: Job, w: string)
    requires HandsInv(s) && i < |s.jobs| && job.id == s.jobs[i].id && s.nextRun !in s.runs
    requires forall r :: r in s.runs ==> HoldsLease(s.jobs[i := job], s.runs[r], s.now) ==> HoldsLease(s.jobs, s.runs[r], s.now)
    requires forall r :: r in s.runs && Live(s, r) && s.runs[r].job.documentId == job.documentId ==>
               !HoldsLease(s.jobs, s.runs[r], s.now) && !HoldsLease(s.jobs[i := job], Run(job, w, Claimed), s.now) &&
               !(s.runs[r].point.Owned? && SamePair(s.runs[r], w, job.fencingToken))
    ensures HandsInv(WithClaim(s, i, job, w))
  {
    var t := WithClaim(s, i, job, w);
    forall r | r in s.runs
      ensures t.runs[r] == s.runs[r] && (Live(t, r) <==> Live(s, r)) && RunOk(t, r)
    {
      assert RunOk(s, r);
    }
    forall r, q | r in t.runs && q in t.runs && r != q && SameDocument(t, r, q) && Live(t, r) && Live(t, q)
      ensures Harmless(t, r, q)
    {
      if r != s.nextRun && q != s.nextRun {
        assert Harmless(s, r, q);
      }
    }
  }

  lemma ClaimKeepsHands(s: State, step: Step)
    requires AllInv(s) && step.Claim? && !TakesOver(s, step)
    ensures HandsInv(ServiceStep(s, step))
  {
    var i := ClaimedJob(s, step);
    if i.Some? {
      var job := ClaimedBy(s.jobs[i.value], step.workerId, step.at, step.leaseMs);
      assert s.nextRun in s.runs ==> RunIssued(s, s.nextRun);
      assert s.jobs[i.value] in s.jobs;
      forall r | r in s.runs
        ensures HoldsLease(s.jobs[i.value := job], s.runs[r], s.now) ==> HoldsLease(s.jobs, s.runs[r], s.now)
      {
        assert RunIssued(s, r);
        ClaimGainsNothing(s, i.value, job, s.runs[r]);
      }
      forall r | r in s.runs && Live(s, r) && s.runs[r].job.documentId == job.documentId
        ensures !HoldsLease(s.jobs, s.runs[r], s.now) && !HoldsLease(s.jobs[i.value := job], Run(job, step.workerId, Claimed), s.now)
        ensures !(s.runs[r].point.Owned? && SamePair(s.runs[r], step.workerId, job.fencingToken))
      {
        assert RunIssued(s, r);
        NobodyHolds(s, i.value, step.at, r);
        LapsedClaim(s, i.value, job, Run(job, step.workerId, Claimed));
      }
      NewRunKeepsHands(s, i.value, job, step.workerId);
    }
  }

  // ----- run steps -----

  /** What a step may write: PROCESSING under its own pair, or something that clears or leaves the guard. */
  predicate WriteOk(run: Run, doc: Document, e: Effect) {
    && (e.doc.Some? ==>
          var after := e.doc.value;
          && e.call.None? && e.output.KeepOutput? && doc.status != Deleted && after.status !in {Uploaded, Deleted}
          && (after.status == Processing ==> run.point.Ready? && SamePair(run, after.workerId.GetOr(""), after.token) && after.workerId.Some?)
          && (after.status == Completed ==> run.point.Owned? && GuardLets(run, Some(doc)) && e.point == Some(Acknowledging)))
    && (e.output.DropOutput? ==> MayDelete(run.point))
  }

  /** Where a step may leave a run; `owned` says that its lease was checked and is running. */
  predicate MoveOk(run: Run, doc: Document, owned: bool, e: Effect) {
    e.point.Some? ==>
      var point := e.point.value;
      && (point.Claimed? ==> run.point.Claimed? && e.doc.None?)
      && (point.SawUploaded? ==> (run.point.SawUploaded? || run.point.Claimed?) && e.doc.None?)
      && (point.Ready? ==> run.point.Ready? || run.point.Claimed? || (run.point.SawUploaded? && doc.status == Uploaded))
      && (point.Ready? && e.doc.None? ==> run.point.Ready? || doc.status != Uploaded)
      && (MayDelete(point) ==>
            if MayDelete(run.point) then e.doc.None? else run.point.Ready? && e.doc.Some? && e.doc.value.status == Processing)
      && (point.SavedOutput? ==> e.output.SaveOutput? || (run.point.SavedOutput? && e.output.KeepOutput?))
      && (point.Owned? ==> e.output.KeepOutput? && (run.point.Owned? || (run.point.SavedOutput? && owned)))
  }

  lemma WritesAreOk(s: State, step: Step, r: nat)
    requires r in s.runs && s.runs[r].job.documentId in s.docs
    ensures WriteOk(s.runs[r], s.docs[s.runs[r].job.documentId], EffectOf(s, step, r))
  {
  }

  lemma EarlyMovesAreOk(s: State, step: Step, r: nat, owned: bool)
    requires r in s.runs && s.runs[r].job.documentId in s.docs && (step.Read? || step.Promote? || step.MarkProcessing?)
    ensures MoveOk(s.runs[r], s.docs[s.runs[r].job.documentId], owned, EffectOf(s, step, r))
  {
  }

  lemma LateMovesAreOk(s: State, step: Step, r: nat, owned: bool)
    requires r in s.runs && s.runs[r].job.documentId in s.docs && !(step.Read? || step.Promote? || step.MarkProcessing?)
    requires owned == CheckLease(s.jobs, s.runs[r].job.id, s.runs[r].workerId, Token(s.runs[r]), s.now).Ok?
    ensures MoveOk(s.runs[r], s.docs[s.runs[r].job.documentId], owned, EffectOf(s, step, r))
  {
  }

  lemma MovesAreOk(s: State, step: Step, r: nat, owned: bool)
    requires r in s.runs && s.runs[r].job.documentId in s.docs
    requires owned == CheckLease(s.jobs, s.runs[r].job.id, s.runs[r].workerId, Token(s.runs[r]), s.now).Ok?
    ensures MoveOk(s.runs[r], s.docs[s.runs[r].job.documentId], owned, EffectOf(s, step, r))
  {
    if step.Read? || step.Promote? || step.MarkProcessing? {
      EarlyMovesAreOk(s, step, r, owned);
    } else {
      LateMovesAreOk(s, step, r, owned);
    }
  }

  lemma LeaseChecked(jobs: seq<Job>, run: Run, now: int)
    requires CheckLease(jobs, run.job.id, run.workerId, Token(run), now).Ok?
    ensures HoldsLease(jobs, run, now)
  {
    assert jobs[CheckLease(jobs, run.job.id, run.workerId, Token(run), now).value] in jobs;
  }

  /** All that the lemmas below need to know about a step of run r. */
  ghost predicate StepOk(s: State, r: nat, e: Effect)
    requires r in s.runs && s.runs[r].job.documentId in s.docs
  {
    var run, doc := s.runs[r], s.docs[s.runs[r].job.documentId];
    WriteOk(run, doc, e) && MoveOk(run, doc, HoldsLease(s.jobs, run, s.now), e) && Narrows(s.jobs, Applied(s, r, e).jobs, s.now)
  }

  /** A run that is live after the step was live before, and has no lease that it had not. */
  lemma NothingGained(s: State, r: nat, e: Effect, q: nat)
    requires r in s.runs && s.runs[r].job.documentId in s.docs && StepOk(s, r, e)
    requires q in Applied(s, r, e).runs && q in s.runs
    ensures var t := Applied(s, r, e);
            t.runs[q].job == s.runs[q].job && t.runs[q].workerId == s.runs[q].workerId &&
            (q != r ==> t.runs[q] == s.runs[q]) &&
            (Live(t, q) ==> Live(s, q)) &&
            (HoldsLease(t.jobs, t.runs[q], t.now) ==> HoldsLease(s.jobs, s.runs[q], s.now))
  {
    var t := Applied(s, r, e);
    LeaseNotGained(s.jobs, t.jobs, s.now, s.runs[q], t.runs[q]);
    if q == r { OwnLiveBefore(s, r, e); } else { OtherLiveBefore(s, r, e, q); }
  }

  lemma LeaseNotGained(before: seq<Job>, after: seq<Job>, now: int, was: Run, run: Run)
    requires Narrows(before, after, now) && run.job == was.job && run.workerId == was.workerId
    ensures HoldsLease(after, run, now) ==> HoldsLease(before, was, now)
  {
    NarrowsOwns(before, after, now, run);
    SameHolder(before, run, was, now);
  }

  lemma OwnLiveBefore(s: State, r: nat, e: Effect)
    requires r in s.runs && s.runs[r].job.documentId in s.docs && r in Applied(s, r, e).runs
    requires WriteOk(s.runs[r], s.docs[s.runs[r].job.documentId], e)
    requires MoveOk(s.runs[r], s.docs[s.runs[r].job.documentId], HoldsLease(s.jobs, s.runs[r], s.now), e)
    ensures Live(Applied(s, r, e), r) ==> Live(s, r)
  {
  }

  lemma OtherLiveBefore(s: State, r: nat, e: Effect, q: nat)
    requires r in s.runs && s.runs[r].job.documentId in s.docs && q in s.runs && q != r
    requires WriteOk(s.runs[r], s.docs[s.runs[r].job.documentId], e)
    ensures Live(Applied(s, r, e), q) ==> Live(s, q)
  {
  }

  lemma OwnRunOk(s: State, r: nat, e: Effect)
    requires r in s.runs && s.runs[r].job.documentId in s.docs && StepOk(s, r, e) && RunOk(s, r)
    requires r in Applied(s, r, e).runs
    ensures RunOk(Applied(s, r, e), r)
  {
    NothingGained(s, r, e, r);
  }

  lemma OtherRunOk(s: State, r: nat, e: Effect, q: nat)
    requires r in s.runs && s.runs[r].job.documentId in s.docs && StepOk(s, r, e) && q in s.runs && q != r && RunOk(s, q)
    requires SameDocument(s, r, q) && Live(s, r) && Live(s, q) ==> Harmless(s, r, q) && Harmless(s, q, r)
    ensures RunOk(Applied(s, r, e), q)
  {
    NothingGained(s, r, e, q);
  }

  lemma StaysHarmless(s: State, r: nat, e: Effect, p: nat, q: nat)
    requires r in s.runs && s.runs[r].job.documentId in s.docs && StepOk(s, r, e)
    requires p in Applied(s, r, e).runs && q in Applied(s, r, e).runs && p in s.runs && q in s.runs && p != q
    requires SameDocument(s, p, q) && Live(s, p) && Live(s, q) && Harmless(s, p, q) && Harmless(s, q, p)
    requires SameDocument(s, p, r) && Live(s, r) && p != r ==> Harmless(s, p, r)
    ensures Harmless(Applied(s, r, e), p, q)
  {
    var t := Applied(s, r, e);
    NothingGained(s, r, e, p);
    NothingGained(s, r, e, q);
    if t.runs[p].point.Owned? && MayDelete(t.runs[q].point) {
      GuardShut(s, r, e, p, q);
    }
  }

  lemma GuardShut(s: State, r: nat, e: Effect, p: nat, q: nat)
    requires r in s.runs && s.runs[r].job.documentId in s.docs && StepOk(s, r, e)
    requires p in Applied(s, r, e).runs && q in Applied(s, r, e).runs && p in s.runs && q in s.runs && p != q
    requires SameDocument(s, p, q) && Live(s, p) && Live(s, q) && Harmless(s, p, q)
    requires SameDocument(s, p, r) && Live(s, r) && p != r ==> Harmless(s, p, r)
    requires Applied(s, r, e).runs[p].point.Owned? && MayDelete(Applied(s, r, e).runs[q].point)
    ensures !GuardPasses(Applied(s, r, e), s.runs[p])
  {
  }

  lemma DerivativesKept(s: State, r: nat, e: Effect)
    requires r in s.runs && s.runs[r].job.documentId in s.docs && StepOk(s, r, e) && RunOk(s, r) && CompletedHasDerivatives(s)
    ensures CompletedHasDerivatives(Applied(s, r, e))
  {
    var t := Applied(s, r, e);
    forall d | IsStatus(t, d, {Completed})
      ensures d in t.derivatives
    {
      assert IsStatus(s, d, {Completed}) ==> d in s.derivatives;
    }
  }

  lemma AppliedKeepsHands(s: State, r: nat, e: Effect)
    requires HandsInv(s) && r in s.runs && s.runs[r].job.documentId in s.docs && StepOk(s, r, e)
    ensures HandsInv(Applied(s, r, e))
  {
    var t := Applied(s, r, e);
    assert RunOk(s, r);
    DerivativesKept(s, r, e);
    forall q | q in t.runs
      ensures RunOk(t, q)
    {
      assert RunOk(s, q);
      if q == r { OwnRunOk(s, r, e); } else { OtherRunOk(s, r, e, q); }
    }
    forall p, q | p in t.runs && q in t.runs && p != q && SameDocument(t, p, q) && Live(t, p) && Live(t, q)
      ensures Harmless(t, p, q)
    {
      NothingGained(s, r, e, p);
      NothingGained(s, r, e, q);
      StaysHarmless(s, r, e, p, q);
    }
  }

  lemma RunStepKeepsHands(s: State, step: Step, r: nat)
    requires HandsInv(s) && r in s.runs && s.runs[r].job.documentId in s.docs
    ensures HandsInv(RunStep(s, step, r))
  {
    var run, d := s.runs[r], s.runs[r].job.documentId;
    var checked := CheckLease(s.jobs, run.job.id, run.workerId, Token(run), s.now).Ok?;
    if checked { LeaseChecked(s.jobs, run, s.now); }
    WritesAreOk(s, step, r);
    MovesAreOk(s, step, r, checked);
    RunStepNarrows(s, step, r);
    AppliedKeepsHands(s, r, EffectOf(s, step, r));
  }

  // ----- whole runs -----

  lemma DocumentsStayKnown(s: State, step: Step)
    requires DocumentsKnown(s) && forall job :: job in s.jobs ==> job.id in s.issued && s.issued[job.id].documentId == job.documentId
    ensures DocumentsKnown(Next(s, step))
  {
    if !IsRunStep(step) {
      ServiceKnows(s, step);
    } else if step.run in s.runs {
      AppliedKnows(s, step.run, EffectOf(s, step, step.run));
    }
  }

  lemma AppliedKnows(s: State, r: nat, e: Effect)
    requires DocumentsKnown(s) && r in s.runs
    ensures DocumentsKnown(Applied(s, r, e))
  {
  }

  lemma ServiceKnows(s: State, step: Step)
    requires DocumentsKnown(s) && forall job :: job in s.jobs ==> job.id in s.issued && s.issued[job.id].documentId == job.documentId
    ensures DocumentsKnown(ServiceStep(s, step))
  {
    if step.Claim? {
      var i := OldestClaimable(s.jobs, step.at, |s.jobs|);
      assert i.Some? ==> s.jobs[i.value] in s.jobs;
    }
  }

  lemma StepKeepsHands(s: State, step: Step)
    requires AllInv(s) && !TakesOver(s, step)
    ensures HandsInv(Next(s, step))
  {
    if step.Claim? {
      ClaimKeepsHands(s, step);
    } else if !IsRunStep(step) {
      ServiceKeepsHands(s, step);
    } else if step.run in s.runs {
      assert RunIssued(s, step.run);
      RunStepKeepsHands(s, step, step.run);
    }
  }

  lemma StepKeepsAll(s: State, step: Step)
    requires AllInv(s) && !TakesOver(s, step)
    ensures AllInv(Next(s, step))
  {
    StepKeepsFile(s, step);
    StepKeepsInv(s, step);
    DocumentsStayKnown(s, step);
    StepKeepsHands(s, step);
  }

  lemma {:induction false} ExecuteKeepsAll(s: State, steps: seq<Step>)
    requires AllInv(s) && NoTakeover(s, steps)
    ensures AllInv(Execute(s, steps))
    decreases |steps|
  {
    if steps != [] {
      StepKeepsAll(s, steps[0]);
      ExecuteKeepsAll(Next(s, steps[0]), steps[1..]);
    }
  }

  /** While no claim takes over, a COMPLETED document keeps its derivatives. */
  lemma CompletedKeepsDerivatives(now: int, policy: Policy, steps: seq<Step>)
    requires NoTakeover(Initial(now, policy), steps)
    ensures CompletedHasDerivatives(Execute(Initial(now, policy), steps))
  {
    ExecuteKeepsAll(Initial(now, policy), steps);
  }

  // ----- and the condition is exact -----

  /** Only run r moved, from where it stood to `point`, and of the documents only its own may have changed. */
  ghost predicate Moved(s: State, t: State, r: nat, point: Point)
    requires r in s.runs
  {
    && t.jobs == s.jobs && t.now == s.now && t.runs == s.runs[r := s.runs[r].(point := point)]
    && t.docs.Keys == s.docs.Keys && (forall d :: d in s.docs && d != s.runs[r].job.documentId ==> t.docs[d] == s.docs[d])
  }

  predicate Unfinished(s: State, d: string) {
    IsStatus(s, d, {Uploaded, Queued, Processing})
  }

  /** Steps that are not claims take nothing over. */
  predicate NoClaims(steps: seq<Step>) {
    forall i :: 0 <= i < |steps| ==> !steps[i].Claim?
  }

  lemma {:induction false} NoClaimsNoTakeover(s: State, steps: seq<Step>)
    requires NoClaims(steps)
    ensures NoTakeover(s, steps)
    decreases |steps|
  {
    if steps != [] {
      NoClaimsNoTakeover(Next(s, steps[0]), steps[1..]);
    }
  }

  lemma Then(s: State, steps: seq<Step>, step: Step) returns (more: seq<Step>)
    requires NoClaims(steps) && !step.Claim?
    ensures NoClaims(more) && Execute(s, more) == Next(Execute(s, steps), step)
  {
    more := steps + [step];
    ExecuteAppend(s, steps, [step]);
    ExecuteOne(Execute(s, steps), step);
  }

  lemma ReadMoves(s: State, r: nat)
    requires r in s.runs && s.runs[r].point.Claimed? && Unfinished(s, s.runs[r].job.documentId)
    ensures var d, t := s.runs[r].job.documentId, Next(s, Read(r));
            Moved(s, t, r, if s.docs[d].status == Uploaded then SawUploaded else Ready(s.docs[d].attempts)) && t.docs == s.docs
  {
  }

  lemma PromotionMoves(s: State, r: nat)
    requires r in s.runs && s.runs[r].point.SawUploaded? && IsStatus(s, s.runs[r].job.documentId, {Uploaded})
    ensures var d, t := s.runs[r].job.documentId, Next(s, Promote(r));
            Moved(s, t, r, Ready(s.docs[d].attempts)) && IsStatus(t, d, {Queued})
  {
  }

  lemma MarkMoves(s: State, r: nat)
    requires r in s.runs && s.runs[r].point.Ready? && IsStatus(s, s.runs[r].job.documentId, {Queued, Processing})
    ensures var d, t := s.runs[r].job.documentId, Next(s, MarkProcessing(r));
            Moved(s, t, r, Working(s.runs[r].point.attempts + 1)) && IsStatus(t, d, {Processing}) &&
            t.docs[d].workerId == Some(s.runs[r].workerId) && t.docs[d].token == Token(s.runs[r])
  {
  }

  lemma ThrowMoves(s: State, r: nat)
    requires r in s.runs && MayDelete(s.runs[r].point) && !s.runs[r].point.Failing?
    ensures var t := Next(s, Throw(r, true));
            Moved(s, t, r, Failing(s.runs[r].point.attempts, true)) && t.docs == s.docs
  {
  }

  lemma SaveMoves(s: State, r: nat)
    requires r in s.runs && s.runs[r].point.Working?
    ensures var t := Next(s, Save(r));
            Moved(s, t, r, SavedOutput(s.runs[r].point.attempts)) && t.docs == s.docs
  {
  }

  lemma AssertMoves(s: State, r: nat)
    requires r in s.runs && s.runs[r].point.SavedOutput?
    requires CheckLease(s.jobs, s.runs[r].job.id, s.runs[r].workerId, Token(s.runs[r]), s.now).Ok?
    ensures var t := Next(s, AssertOwned(r));
            Moved(s, t, r, Owned(s.runs[r].point.attempts)) && t.docs == s.docs
  {
  }

  lemma CompleteMoves(s: State, r: nat)
    requires r in s.runs && s.runs[r].point.Owned? && GuardPasses(s, s.runs[r])
    ensures var d, t := s.runs[r].job.documentId, Next(s, Complete(r));
            Moved(s, t, r, Acknowledging) && IsStatus(t, d, {Completed})
  {
  }

  lemma DropDeletes(s: State, r: nat)
    requires r in s.runs && s.runs[r].point.Failing?
    ensures var t := Next(s, Drop(r));
            t.docs == s.docs && s.runs[r].job.documentId !in t.derivatives
  {
  }

  /** The run is before its mark and its document will let it come to make it. */
  predicate CanMark(s: State, r: nat)
    requires r in s.runs
  {
    var point, d := s.runs[r].point, s.runs[r].job.documentId;
    Unfinished(s, d) &&
    (point.Claimed? || (if point.SawUploaded? then IsStatus(s, d, {Uploaded}) else point.Ready? && !IsStatus(s, d, {Uploaded})))
  }

  lemma ToReady(s: State, r: nat) returns (steps: seq<Step>, n: nat)
    requires r in s.runs && CanMark(s, r)
    ensures NoClaims(steps) && Moved(s, Execute(s, steps), r, Ready(n))
    ensures IsStatus(Execute(s, steps), s.runs[r].job.documentId, {Queued, Processing})
  {
    steps, n := [], if s.runs[r].point.Ready? then s.runs[r].point.attempts else 0;
    if s.runs[r].point.Claimed? {
      ReadMoves(s, r);
      n := s.docs[s.runs[r].job.documentId].attempts;
      steps := Then(s, steps, Read(r));
    }
    var t := Execute(s, steps);
    if t.runs[r].point.SawUploaded? {
      PromotionMoves(t, r);
      n := t.docs[t.runs[r].job.documentId].attempts;
      steps := Then(s, steps, Promote(r));
    }
  }

  /** The document is PROCESSING under the run's own pair. */
  predicate MarkedFor(s: State, run: Run) {
    IsStatus(s, run.job.documentId, {Processing}) && GuardPasses(s, run)
  }

  lemma MarksReady(s: State, t: State, r: nat, n: nat)
    requires r in s.runs && Moved(s, t, r, Ready(n)) && IsStatus(t, s.runs[r].job.documentId, {Queued, Processing})
    ensures var u := Next(t, MarkProcessing(r)); Moved(s, u, r, Working(n + 1)) && MarkedFor(u, s.runs[r])
  {
    MarkMoves(t, r);
  }

  lemma MarkNext(s: State, ready: seq<Step>, r: nat, n: nat) returns (steps: seq<Step>)
    requires NoClaims(ready) && r in s.runs && Moved(s, Execute(s, ready), r, Ready(n))
    requires IsStatus(Execute(s, ready), s.runs[r].job.documentId, {Queued, Processing})
    ensures NoClaims(steps) && Moved(s, Execute(s, steps), r, Working(n + 1)) && MarkedFor(Execute(s, steps), s.runs[r])
  {
    MarksReady(s, Execute(s, ready), r, n);
    steps := Then(s, ready, MarkProcessing(r));
  }

  lemma ToWorking(s: State, r: nat) returns (steps: seq<Step>, n: nat)
    requires r in s.runs && CanMark(s, r)
    ensures NoClaims(steps) && Moved(s, Execute(s, steps), r, Working(n)) && MarkedFor(Execute(s, steps), s.runs[r])
  {
    var ready, m := ToReady(s, r);
    steps := MarkNext(s, ready, r, m);
    n := m + 1;
  }

  /** A live run can come to stand before the deletion in its catch block. */
  lemma ToFailing(s: State, r: nat) returns (steps: seq<Step>, point: Point)
    requires r in s.runs && Live(s, r) && Unfinished(s, s.runs[r].job.documentId)
    requires s.runs[r].point.Ready? ==> !IsStatus(s, s.runs[r].job.documentId, {Uploaded})
    ensures NoClaims(steps) && point.Failing? && Moved(s, Execute(s, steps), r, point)
    ensures Unfinished(Execute(s, steps), s.runs[r].job.documentId)
  {
    steps := [];
    if !MayDelete(s.runs[r].point) {
      var n;
      steps, n := ToWorking(s, r);
    }
    var t := Execute(s, steps);
    point := t.runs[r].point;
    if !point.Failing? {
      ThrowMoves(t, r);
      steps := Then(s, steps, Throw(r, true));
      point := Failing(point.attempts, true);
    }
  }

  /** A run that holds a lease can finish its document. */
  lemma ToCompleted(s: State, q: nat) returns (steps: seq<Step>)
    requires q in s.runs && Unfinished(s, s.runs[q].job.documentId) && s.runs[q].point.Claimed?
    requires CheckLease(s.jobs, s.runs[q].job.id, s.runs[q].workerId, Token(s.runs[q]), s.now).Ok?
    ensures NoClaims(steps) && Moved(s, Execute(s, steps), q, Acknowledging)
    ensures IsStatus(Execute(s, steps), s.runs[q].job.documentId, {Completed})
  {
    var n;
    steps, n := ToWorking(s, q);
    SaveMoves(Execute(s, steps), q);
    steps := Then(s, steps, Save(q));
    AssertMoves(Execute(s, steps), q);
    steps := Then(s, steps, AssertOwned(q));
    CompleteMoves(Execute(s, steps), q);
    steps := Then(s, steps, Complete(q));
  }

  /** The run with the lease finishes the document, and then the other run deletes its derivatives. */
  lemma FinishThenDelete(s: State, r: nat, q: nat) returns (steps: seq<Step>)
    requires r in s.runs && q in s.runs && r != q && SameDocument(s, r, q) && Live(s, r) && s.runs[q].point.Claimed?
    requires Unfinished(s, s.runs[r].job.documentId) && (s.runs[r].point.Ready? ==> !IsStatus(s, s.runs[r].job.documentId, {Uploaded}))
    requires CheckLease(s.jobs, s.runs[q].job.id, s.runs[q].workerId, Token(s.runs[q]), s.now).Ok?
    ensures NoClaims(steps) && !CompletedHasDerivatives(Execute(s, steps))
  {
    var d := s.runs[r].job.documentId;
    var point;
    steps, point := ToFailing(s, r);
    var t := Execute(s, steps);
    var more := ToCompleted(t, q);
    ExecuteAppend(s, steps, more);
    steps := steps + more;
    var u := Execute(s, steps);
    DropDeletes(u, r);
    steps := Then(s, steps, Drop(r));
    assert IsStatus(Execute(s, steps), d, {Completed});
  }

  /** A run past its last check finishes the document under the other run's mark, and that one deletes the derivatives. */
  lemma MarkThenDelete(s: State, r: nat, q: nat) returns (steps: seq<Step>)
    requires r in s.runs && q in s.runs && r != q && SameDocument(s, r, q) && s.runs[q].point.Claimed?
    requires Unfinished(s, s.runs[r].job.documentId)
    requires s.runs[r].point.Owned? && SamePair(s.runs[r], s.runs[q].workerId, Token(s.runs[q]))
    ensures NoClaims(steps) && !CompletedHasDerivatives(Execute(s, steps))
  {
    var d := s.runs[r].job.documentId;
    var n;
    steps, n := ToWorking(s, q);
    CompleteMoves(Execute(s, steps), r);
    steps := Then(s, steps, Complete(r));
    ThrowMoves(Execute(s, steps), q);
    steps := Then(s, steps, Throw(q, true));
    DropDeletes(Execute(s, steps), q);
    steps := Then(s, steps, Drop(q));
    assert IsStatus(Execute(s, steps), d, {Completed});
  }

  /** A finished document can be requeued first. */
  lemma Reopened(s: State, d: string) returns (steps: seq<Step>)
    requires d in s.docs && s.docs[d].status != Deleted
    ensures NoClaims(steps) && Unfinished(Execute(s, steps), d)
    ensures var t := Execute(s, steps);
            t.jobs == s.jobs && t.runs == s.runs && t.now == s.now && (Unfinished(s, d) ==> t == s) &&
            (!Unfinished(s, d) ==> IsStatus(t, d, {Queued}))
  {
    steps := [];
    if !Unfinished(s, d) {
      assert s.docs[d].status in {Completed, Failed, Quarantined};
      steps := Then(s, steps, Requeue(d));
    }
  }

  lemma NewRunHasLease(s: State, i: nat)
    requires DistinctIds(s.jobs) && i < |s.jobs| && LeaseRunning(s.jobs[i], s.now) && s.jobs[i].claimed && s.jobs[i].workerId.Some?
    ensures CheckLease(s.jobs, s.jobs[i].id, s.jobs[i].workerId.value, s.jobs[i].fencingToken, s.now).Ok?
  {
  }

  /** After a takeover: q has just claimed, and either holds a lease or bears the pair of r, which is past its last check. */
  lemma LosesAfterClaim(s: State, r: nat, q: nat) returns (more: seq<Step>)
    requires r in s.runs && q in s.runs && r != q && SameDocument(s, r, q) && Live(s, r) && s.runs[q].point.Claimed?
    requires s.runs[r].point.Ready? ==> !IsStatus(s, s.runs[r].job.documentId, {Uploaded})
    requires CheckLease(s.jobs, s.runs[q].job.id, s.runs[q].workerId, Token(s.runs[q]), s.now).Ok? ||
             (s.runs[r].point.Owned? && SamePair(s.runs[r], s.runs[q].workerId, Token(s.runs[q])))
    ensures NoClaims(more) && !CompletedHasDerivatives(Execute(s, more))
  {
    var first := Reopened(s, s.runs[r].job.documentId);
    var t := Execute(s, first);
    if CheckLease(s.jobs, s.runs[q].job.id, s.runs[q].workerId, Token(s.runs[q]), s.now).Ok? {
      more := FinishThenDelete(t, r, q);
    } else {
      more := MarkThenDelete(t, r, q);
    }
    ExecuteAppend(s, first, more);
    more := first + more;
  }

  lemma ClaimIs(s: State, step: Step)
    requires step.Claim? && ClaimedJob(s, step).Some?
    ensures var i := ClaimedJob(s, step).value;
            Next(s, step) == WithClaim(s, i, ClaimedBy(s.jobs[i], step.workerId, step.at, step.leaseMs), step.workerId)
  {
  }

  lemma NewRunLoses(s: State, i: nat, job: Job, w: string, r: nat) returns (more: seq<Step>)
    requires i < |s.jobs| && DistinctIds(s.jobs[i := job]) && OwnedBy(job, w, job.fencingToken)
    requires r in s.runs && r != s.nextRun && Live(s, r) && s.runs[r].job.documentId == job.documentId
    requires s.runs[r].point.Ready? ==> !IsStatus(s, job.documentId, {Uploaded})
    requires LeaseRunning(job, s.now) || (s.runs[r].point.Owned? && SamePair(s.runs[r], w, job.fencingToken))
    ensures NoClaims(more) && !CompletedHasDerivatives(Execute(WithClaim(s, i, job, w), more))
  {
    var t := WithClaim(s, i, job, w);
    if LeaseRunning(job, s.now) {
      NewRunHasLease(t, i);
    }
    more := LosesAfterClaim(t, r, s.nextRun);
  }

  lemma DistinctAfterUpdate(jobs: seq<Job>, i: nat, job: Job)
    requires DistinctIds(jobs) && i < |jobs| && job.id == jobs[i].id
    ensures DistinctIds(jobs[i := job])
  {
  }

  lemma TakeoverLoses(s: State, step: Step) returns (more: seq<Step>)
    requires AllInv(s) && TakesOver(s, step)
    ensures NoClaims(more) && !CompletedHasDerivatives(Execute(Next(s, step), more))
  {
    var i := ClaimedJob(s, step).value;
    var job := ClaimedBy(s.jobs[i], step.workerId, step.at, step.leaseMs);
    var r :| r in s.runs && Live(s, r) && s.runs[r].job.documentId == s.jobs[i].documentId &&
      (s.now < step.at + step.leaseMs || (s.runs[r].point.Owned? && SamePair(s.runs[r], step.workerId, s.jobs[i].fencingToken + 1)));
    assert RunIssued(s, r) && RunOk(s, r);
    DistinctAfterUpdate(s.jobs, i, job);
    ClaimIs(s, step);
    more := NewRunLoses(s, i, job, step.workerId, r);
  }

  /**
   * In every state that a run without a takeover reaches: a step has a continuation without a takeover
   * after which some COMPLETED document has no derivatives if and only if the step `TakesOver`.
   */
  lemma DerivativesAreLostIff(now: int, policy: Policy, steps: seq<Step>, step: Step)
    requires NoTakeover(Initial(now, policy), steps)
    ensures var s := Execute(Initial(now, policy), steps);
            TakesOver(s, step) <==>
            exists more :: NoTakeover(Next(s, step), more) && !CompletedHasDerivatives(Execute(Next(s, step), more))
  {
    var s := Execute(Initial(now, policy), steps);
    ExecuteKeepsAll(Initial(now, policy), steps);
    if TakesOver(s, step) {
      var more := TakeoverLoses(s, step);
      NoClaimsNoTakeover(Next(s, step), more);
    } else {
      StepKeepsAll(s, step);
      forall more | NoTakeover(Next(s, step), more)
        ensures CompletedHasDerivatives(Execute(Next(s, step), more))
      {
        ExecuteKeepsAll(Next(s, step), more);
      }
    }
  }
}
