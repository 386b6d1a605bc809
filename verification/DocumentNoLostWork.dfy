/**
 * No lost work: a document that is QUEUED or PROCESSING has a job in the queue, so that a worker can
 * claim it again.  This holds in every run without a step that `LosesJob`, and such a step has a
 * harmless-looking continuation in which the job is lost; so the condition is exact.
 */
module DocumentNoLostWork {
  import opened Wrappers
  import opened DocumentQueue
  import opened DocumentWorker
  import opened DocumentFence
  import opened DocumentSteps
  import DocumentLeases

  // A job leaves the queue in three ways: its document is deleted, the upload service withdraws it, or a run
  // acknowledges it.  The heart of `WorkInv` is that a run which still owns its job settles its document
  // before it acknowledges.

  predicate Settled(s: State, d: string) {
    IsStatus(s, d, {Completed, Failed, Quarantined, Deleted})
  }

  ghost predicate NoLostWork(s: State) {
    forall d :: IsStatus(s, d, {Queued, Processing}) ==> HasJob(s.jobs, d)
  }

  /** Run r is about to acknowledge the job of d, and the queue will accept it. */
  predicate WillAcknowledge(s: State, r: nat, d: string) {
    r in s.runs && s.runs[r].job.documentId == d && s.runs[r].point.Acknowledging? && Owns(s.jobs, s.runs[r])
  }

  /** Run r, which owns the job of d, has read that d is UPLOADED: it acknowledges if d is not when it promotes it. */
  predicate WillPromote(s: State, r: nat, d: string) {
    r in s.runs && s.runs[r].job.documentId == d && s.runs[r].point.SawUploaded? && Owns(s.jobs, s.runs[r])
  }

  /**
   * The steps that lose a job: requeueing a finished document whose job is gone or is about to be
   * acknowledged; the upload service withdrawing, once or a second time, a job that a worker has taken up; and moving a
   * document out of UPLOADED, by the service or by a run, under a run that owns its job and still
   * takes it for UPLOADED.
   */
  ghost predicate LosesJob(s: State, step: Step) {
    match step
    case Requeue(d) =>
      IsStatus(s, d, {Completed, Failed, Quarantined}) && (!HasJob(s.jobs, d) || exists r :: WillAcknowledge(s, r, d))
    case MarkQueued(d) =>
      d in s.submitted &&
      (IsStatus(s, d, {Queued, Processing}) || (IsStatus(s, d, {Uploaded}) && exists r :: WillPromote(s, r, d)))
    case WithdrawAgain(d) => d in s.withdrawn && IsStatus(s, d, {Queued, Processing})
    case Promote(r) =>
      r in s.runs && s.runs[r].point.SawUploaded? && IsStatus(s, s.runs[r].job.documentId, {Uploaded}) &&
      exists q :: q != r && WillPromote(s, q, s.runs[r].job.documentId)
    case _ => false
  }

  ghost predicate LosesNothing(s: State, steps: seq<Step>)
    decreases |steps|
  {
    steps == [] || (!LosesJob(s, steps[0]) && LosesNothing(Next(s, steps[0]), steps[1..]))
  }

  // ----- the invariant -----

  predicate HasIssue(s: State, d: string) {
    exists id :: id in s.issued && s.issued[id].documentId == d
  }

  /** An unfinished document has a job; so has an UPLOADED one that was ever enqueued. */
  predicate DocumentWork(s: State, d: string) {
    IsStatus(s, d, {Queued, Processing}) || (IsStatus(s, d, {Uploaded}) && HasIssue(s, d)) ==> HasJob(s.jobs, d)
  }

  predicate RunWork(s: State, r: nat)
    requires r in s.runs
  {
    var run, d := s.runs[r], s.runs[r].job.documentId;
    && d in s.docs
    && (run.point.Acknowledging? && Owns(s.jobs, run) ==> Settled(s, d))
    && (run.point.SawUploaded? && Owns(s.jobs, run) ==> IsStatus(s, d, {Uploaded, Deleted}))
    && (run.point.Ready? ==> !IsStatus(s, d, {Uploaded}))
  }

  ghost predicate WorkInv(s: State) {
    && (forall id :: id in s.issued ==> s.issued[id].documentId in s.docs)
    && (forall d :: d in s.submitted ==> HasIssue(s, d))
    && (forall d :: d in s.docs ==> DocumentWork(s, d))
    && (forall r :: r in s.runs ==> RunWork(s, r))
  }

  /** A run that a step leaves alone; the step may move its document as long as the run would not lose its job by it. */
  lemma RunWorkKept(s: State, t: State, r: nat)
    requires r in s.runs && RunWork(s, r) && r in t.runs && t.runs[r] == s.runs[r]
    requires var d := s.runs[r].job.documentId;
             d in t.docs && (Owns(t.jobs, s.runs[r]) ==> Owns(s.jobs, s.runs[r])) &&
             (WillAcknowledge(s, r, d) ==> Settled(t, d)) &&
             (WillPromote(s, r, d) ==> IsStatus(t, d, {Uploaded, Deleted})) &&
             (IsStatus(t, d, {Uploaded}) ==> IsStatus(s, d, {Uploaded}))
    ensures RunWork(t, r)
  {
  }

  // ----- service steps -----

  /** Documents and runs are left alone and no document loses its job, except deleted and finished ones. */
  lemma QueueOnlyKeepsWork(s: State, t: State)
    requires WorkInv(s) && t.docs == s.docs && t.runs == s.runs && Narrows(s.jobs, t.jobs, s.now)
    requires forall d :: d in s.docs && !Settled(s, d) && HasJob(s.jobs, d) ==> HasJob(t.jobs, d)
    requires forall id :: id in t.issued && id !in s.issued ==> t.issued[id].documentId in s.docs && HasJob(t.jobs, t.issued[id].documentId)
    requires forall id :: id in s.issued ==> id in t.issued && t.issued[id] == s.issued[id]
    requires forall d :: d in t.submitted ==> d in s.submitted || HasIssue(t, d)
    ensures WorkInv(t)
  {
    forall d | d in s.submitted
      ensures HasIssue(t, d)
    {
      var id :| id in s.issued && s.issued[id].documentId == d;
      assert id in t.issued;
    }
    forall d | d in t.docs
      ensures DocumentWork(t, d)
    {
      assert DocumentWork(s, d);
      if HasIssue(t, d) && !HasIssue(s, d) {
        var id :| id in t.issued && t.issued[id].documentId == d;
        assert id !in s.issued;
      }
    }
    forall r | r in t.runs
      ensures RunWork(t, r)
    {
      NarrowsOwns(s.jobs, t.jobs, s.now, s.runs[r]);
      assert RunWork(s, r);
    }
  }

  /** One document gets another status; the queue is left alone. */
  lemma StatusOnlyKeepsWork(s: State, t: State, d: string)
    requires WorkInv(s) && d in s.docs && t.docs.Keys == s.docs.Keys && (forall e :: e in s.docs && e != d ==> t.docs[e] == s.docs[e])
    requires t.jobs == s.jobs && t.runs == s.runs && t.issued == s.issued && t.submitted <= s.submitted
    requires t.docs[d].status == Deleted || (t.docs[d].status == Queued && HasJob(s.jobs, d))
    requires t.docs[d].status == Queued ==> forall r :: !WillAcknowledge(s, r, d) && !WillPromote(s, r, d)
    ensures WorkInv(t)
  {
    forall e | e in t.docs
      ensures DocumentWork(t, e)
    {
      assert DocumentWork(s, e);
      assert HasIssue(t, e) <==> HasIssue(s, e);
    }
    forall e | e in t.submitted
      ensures HasIssue(t, e)
    {
      assert HasIssue(s, e);
      var id :| id in s.issued && s.issued[id].documentId == e;
      assert id in t.issued;
    }
    forall r | r in t.runs
      ensures RunWork(t, r)
    {
      assert RunWork(s, r);
      RunWorkKept(s, t, r);
    }
  }

  lemma CreateKeepsWork(s: State, d: string)
    requires WorkInv(s) && d !in s.docs
    ensures WorkInv(ServiceStep(s, Create(d)))
  {
    var t := ServiceStep(s, Create(d));
    forall e | e in t.docs
      ensures DocumentWork(t, e)
    {
      assert e in s.docs ==> DocumentWork(s, e);
      assert HasIssue(t, e) <==> HasIssue(s, e);
    }
    forall e | e in t.submitted
      ensures HasIssue(t, e)
    {
      assert HasIssue(s, e);
      var id :| id in s.issued && s.issued[id].documentId == e;
      assert id in t.issued;
    }
    forall r | r in t.runs
      ensures RunWork(t, r)
    {
      assert RunWork(s, r);
      RunWorkKept(s, t, r);
    }
  }

  lemma EnqueueKeepsWork(s: State, d: string, id: string, t: State)
    requires WorkInv(s) && d in s.docs && id !in s.issued && IndexOfDocument(s.jobs, d).None?
    requires t == EnqueueJob(s, d, id) || t == EnqueueJob(s, d, id).(submitted := s.submitted + {d})
    ensures WorkInv(t)
  {
    EnqueuedHasJob(s.jobs, d, id, s.now);
    SubsetNarrows(s.jobs, t.jobs, s.now);
    assert id in t.issued && t.issued[id].documentId == d;
    QueueOnlyKeepsWork(s, t);
  }

  /** Removing the jobs of a settled document. */
  lemma WithdrawKeepsWork(s: State, d: string, submitted: set<string>, withdrawn: set<string>)
    requires WorkInv(s) && Settled(s, d) && submitted <= s.submitted
    ensures WorkInv(s.(jobs := WithoutDocument(s.jobs, d), submitted := submitted, withdrawn := withdrawn))
  {
    RemovalNarrows(s.jobs, d, s.now);
    QueueOnlyKeepsWork(s, s.(jobs := WithoutDocument(s.jobs, d), submitted := submitted, withdrawn := withdrawn));
  }

  lemma SettledOrNot(s: State, d: string)
    requires d in s.docs
    ensures Settled(s, d) <==> !IsStatus(s, d, {Uploaded, Queued, Processing})
  {
    match s.docs[d].status
    case Uploaded =>
    case _ =>
  }

  lemma QueuedKeepsWork(s: State, d: string)
    requires WorkInv(s) && d in s.submitted && !LosesJob(s, MarkQueued(d))
    ensures WorkInv(ServiceStep(s, MarkQueued(d)))
  {
    assert HasIssue(s, d);
    assert DocumentWork(s, d);
    SettledOrNot(s, d);
    if IsStatus(s, d, {Uploaded}) {
      forall r ensures !WillAcknowledge(s, r, d) { assert r in s.runs ==> RunWork(s, r); }
      StatusOnlyKeepsWork(s, ServiceStep(s, MarkQueued(d)), d);
    } else {
      WithdrawKeepsWork(s, d, s.submitted - {d}, s.withdrawn + {d});
    }
  }

  lemma AgainKeepsWork(s: State, d: string)
    requires WorkInv(s) && !LosesJob(s, WithdrawAgain(d))
    ensures WorkInv(ServiceStep(s, WithdrawAgain(d)))
  {
    if d in s.withdrawn && d in s.docs && s.docs[d].status != Uploaded {
      SettledOrNot(s, d);
      WithdrawKeepsWork(s, d, s.submitted, s.withdrawn - {d});
    }
  }

  lemma RequeueKeepsWork(s: State, d: string)
    requires WorkInv(s) && !LosesJob(s, Requeue(d)) && IsStatus(s, d, {Completed, Failed, Quarantined})
    ensures WorkInv(ServiceStep(s, Requeue(d)))
  {
    forall r ensures !WillPromote(s, r, d) { assert r in s.runs ==> RunWork(s, r); }
    StatusOnlyKeepsWork(s, ServiceStep(s, Requeue(d)), d);
  }

  lemma NewRunKeepsWork(s: State, i: nat, job: Job, w: string)
    requires Inv(s) && WorkInv(s) && i < |s.jobs| && job.id == s.jobs[i].id && job.documentId == s.jobs[i].documentId
    requires job.fencingToken == s.jobs[i].fencingToken + 1
    ensures WorkInv(WithClaim(s, i, job, w))
  {
    var t := WithClaim(s, i, job, w);
    assert s.jobs[i] in s.jobs;
    UpdateKeepsJobs(s.jobs, i, job);
    forall d ensures HasIssue(t, d) <==> HasIssue(s, d) {
      assert forall id :: id in t.issued <==> id in s.issued;
    }
    forall d | d in t.docs
      ensures DocumentWork(t, d)
    {
      assert DocumentWork(s, d);
    }
    forall r | r in s.runs && r != s.nextRun
      ensures RunWork(t, r)
    {
      assert RunWork(s, r) && RunIssued(s, r);
      ClaimGainsNothing(s, i, job, s.runs[r]);
      RunWorkKept(s, t, r);
    }
  }

  lemma ClaimKeepsWork(s: State, step: Step)
    requires Inv(s) && WorkInv(s) && step.Claim?
    ensures WorkInv(ServiceStep(s, step))
  {
    var i := ClaimedJob(s, step);
    if i.Some? {
      NewRunKeepsWork(s, i.value, ClaimedBy(s.jobs[i.value], step.workerId, step.at, step.leaseMs), step.workerId);
    }
  }

  lemma TickKeepsWork(s: State, ms: nat)
    requires WorkInv(s)
    ensures WorkInv(ServiceStep(s, Tick(ms)))
  {
    SubsetNarrows(s.jobs, s.jobs, s.now);
    QueueOnlyKeepsWork(s, s.(now := s.now + ms));
  }

  lemma SubmissionKeepsWork(s: State, step: Step)
    requires Inv(s) && WorkInv(s) && !LosesJob(s, step)
    requires step.EnqueueUploaded? || step.EnqueueAgain? || step.MarkQueued? || step.Requeue?
    ensures WorkInv(ServiceStep(s, step))
  {
    if ServiceStep(s, step) != s {
      match step
      case EnqueueUploaded(d, id) => EnqueueKeepsWork(s, d, id, ServiceStep(s, step));
      case EnqueueAgain(d, id) => EnqueueKeepsWork(s, d, id, ServiceStep(s, step));
      case MarkQueued(d) => QueuedKeepsWork(s, d);
      case Requeue(d) => RequeueKeepsWork(s, d);
    }
  }

  lemma ServiceKeepsWork(s: State, step: Step)
    requires Inv(s) && WorkInv(s) && !IsRunStep(step) && !LosesJob(s, step)
    ensures WorkInv(ServiceStep(s, step))
  {
    if step.EnqueueUploaded? || step.EnqueueAgain? || step.MarkQueued? || step.Requeue? {
      SubmissionKeepsWork(s, step);
    } else if ServiceStep(s, step) != s {
      match step
      case Claim(_, _, _) => ClaimKeepsWork(s, step);
      case WithdrawAgain(d) => AgainKeepsWork(s, d);
      case RemoveJobs(d) => WithdrawKeepsWork(s, d, s.submitted, s.withdrawn);
      case Delete(d) => StatusOnlyKeepsWork(s, ServiceStep(s, step), d);
      case Create(d) => CreateKeepsWork(s, d);
      case Tick(ms) => TickKeepsWork(s, ms);
    }
  }

  // ----- run steps -----

  /** What a step of a run may write to its document, and when it acknowledges. */
  predicate WriteWork(run: Run, doc: Document, step: Step, e: Effect) {
    && (e.doc.Some? ==>
          e.call.None? && e.doc.value.status != Uploaded &&
          (doc.status in {Queued, Processing} || (doc.status == Uploaded && step.Promote? && run.point.SawUploaded?)))
    && (e.call.Some? && e.call.value.AcknowledgeCall? ==>
          run.point.Acknowledging? && e.call.value == AcknowledgeCall(run.job.id, run.workerId, Token(run)))
  }

  /** Where a step may leave the run. */
  predicate MoveWork(run: Run, doc: Document, e: Effect) {
    var after := if e.doc.Some? then e.doc.value else doc;
    e.point.Some? ==>
      && (e.point.value.Acknowledging? ==>
            after.status in {Completed, Failed, Quarantined, Deleted} ||
            (e.doc.None? && (run.point.Acknowledging? || (run.point.SawUploaded? && doc.status != Uploaded) ||
                             (run.point.Ready? && doc.status == Uploaded))))
      && (e.point.value.SawUploaded? ==> e.doc.None? && (run.point.SawUploaded? || doc.status == Uploaded))
      && (e.point.value.Ready? ==> (e.doc.None? && run.point.Ready?) || after.status != Uploaded)
  }

  predicate EffectWork(run: Run, doc: Document, step: Step, e: Effect) {
    WriteWork(run, doc, step, e) && MoveWork(run, doc, e)
  }

  lemma WritesAreWork(s: State, step: Step, r: nat)
    requires r in s.runs && s.runs[r].job.documentId in s.docs
    ensures WriteWork(s.runs[r], s.docs[s.runs[r].job.documentId], step, EffectOf(s, step, r))
  {
  }

  lemma EarlyMovesAreWork(s: State, step: Step, r: nat)
    requires r in s.runs && s.runs[r].job.documentId in s.docs && (step.Read? || step.Promote? || step.MarkProcessing?)
    ensures MoveWork(s.runs[r], s.docs[s.runs[r].job.documentId], EffectOf(s, step, r))
  {
  }

  lemma LateMovesAreWork(s: State, step: Step, r: nat)
    requires r in s.runs && s.runs[r].job.documentId in s.docs && !(step.Read? || step.Promote? || step.MarkProcessing?)
    ensures MoveWork(s.runs[r], s.docs[s.runs[r].job.documentId], EffectOf(s, step, r))
  {
  }

  lemma MovesAreWork(s: State, step: Step, r: nat)
    requires r in s.runs && s.runs[r].job.documentId in s.docs
    ensures MoveWork(s.runs[r], s.docs[s.runs[r].job.documentId], EffectOf(s, step, r))
  {
    if step.Read? || step.Promote? || step.MarkProcessing? {
      EarlyMovesAreWork(s, step, r);
    } else {
      LateMovesAreWork(s, step, r);
    }
  }

  /** The queue call of a run costs no document its job, except its own when it acknowledges. */
  lemma EffectKeepsJobs(s: State, r: nat, e: Effect, d: string)
    requires JobsIssued(s) && r in s.runs && RunIssued(s, r) && HasJob(s.jobs, d)
    requires e.call.Some? ==> e.call.value.RenewCall? || e.call.value.ReleaseCall? ||
                              e.call.value == AcknowledgeCall(s.runs[r].job.id, s.runs[r].workerId, Token(s.runs[r]))
    requires e.call.Some? && e.call.value.AcknowledgeCall? ==> d != s.runs[r].job.documentId || !Owns(s.jobs, s.runs[r])
    ensures HasJob(Applied(s, r, e).jobs, d)
  {
    if e.call.Some? {
      match e.call.value
      case RenewCall(id, w, token, ms) => RenewNarrows(s.jobs, id, w, token, s.now, ms);
      case ReleaseCall(id, w, token, at) => ReleaseNarrows(s.jobs, id, w, token, at, s.now);
      case AcknowledgeCall(_, _, _) => AcknowledgeKeepsOthers(s.jobs, s.runs[r]);
    }
  }

  lemma OwnRunKept(s: State, step: Step, r: nat, e: Effect)
    requires r in s.runs && RunWork(s, r) && e.point.Some?
    requires EffectWork(s.runs[r], s.docs[s.runs[r].job.documentId], step, e)
    requires Owns(Applied(s, r, e).jobs, s.runs[r]) ==> Owns(s.jobs, s.runs[r])
    ensures RunWork(Applied(s, r, e), r)
  {
    var t := Applied(s, r, e);
    assert Owns(t.jobs, t.runs[r]) <==> Owns(t.jobs, s.runs[r]);
  }

  /** If the step moves its document out of UPLOADED, it does so under no other run. */
  ghost predicate PromotesAlone(s: State, step: Step, r: nat)
    requires r in s.runs
  {
    step.Promote? && s.runs[r].point.SawUploaded? && IsStatus(s, s.runs[r].job.documentId, {Uploaded}) ==>
      forall q :: q != r ==> !WillPromote(s, q, s.runs[r].job.documentId)
  }

  lemma OtherRunKept(s: State, step: Step, r: nat, e: Effect, q: nat)
    requires r in s.runs && q in s.runs && q != r && RunWork(s, r) && RunWork(s, q)
    requires EffectWork(s.runs[r], s.docs[s.runs[r].job.documentId], step, e)
    requires Owns(Applied(s, r, e).jobs, s.runs[q]) ==> Owns(s.jobs, s.runs[q])
    requires PromotesAlone(s, step, r)
    ensures RunWork(Applied(s, r, e), q)
  {
    RunWorkKept(s, Applied(s, r, e), q);
  }

  lemma DocumentsKeepWork(s: State, step: Step, r: nat, e: Effect)
    requires JobsIssued(s) && WorkInv(s) && r in s.runs && RunIssued(s, r) && RunWork(s, r)
    requires WriteWork(s.runs[r], s.docs[s.runs[r].job.documentId], step, e)
    requires e.call.Some? ==> e.call.value.RenewCall? || e.call.value.ReleaseCall? || e.call.value.AcknowledgeCall?
    ensures var t := Applied(s, r, e);
            (forall d :: d in s.submitted ==> HasIssue(t, d)) && (forall d :: d in t.docs ==> DocumentWork(t, d))
  {
    forall d | d in s.submitted
      ensures HasIssue(Applied(s, r, e), d)
    {
      SameIssue(s, Applied(s, r, e), d);
    }
    forall d | d in Applied(s, r, e).docs
      ensures DocumentWork(Applied(s, r, e), d)
    {
      DocumentWorkKept(s, step, r, e, d);
    }
  }

  lemma RunsKeepWork(s: State, step: Step, r: nat, e: Effect)
    requires r in s.runs && PromotesAlone(s, step, r) && Narrows(s.jobs, Applied(s, r, e).jobs, s.now)
    requires forall q :: q in s.runs ==> RunWork(s, q)
    requires s.runs[r].job.documentId in s.docs && EffectWork(s.runs[r], s.docs[s.runs[r].job.documentId], step, e)
    ensures forall q :: q in Applied(s, r, e).runs ==> RunWork(Applied(s, r, e), q)
  {
    var t := Applied(s, r, e);
    forall q | q in t.runs
      ensures RunWork(t, q)
    {
      NarrowsOwns(s.jobs, t.jobs, s.now, s.runs[q]);
      if q == r { OwnRunKept(s, step, r, e); } else { OtherRunKept(s, step, r, e, q); }
    }
  }

  lemma AppliedKeepsWork(s: State, step: Step, r: nat, e: Effect)
    requires JobsIssued(s) && WorkInv(s) && r in s.runs && RunIssued(s, r) && RunWork(s, r) && PromotesAlone(s, step, r)
    requires EffectWork(s.runs[r], s.docs[s.runs[r].job.documentId], step, e)
    requires e.call.Some? ==> e.call.value.RenewCall? || e.call.value.ReleaseCall? || e.call.value.AcknowledgeCall?
    ensures WorkInv(Applied(s, r, e))
  {
    EffectNarrows(s, r, e);
    RunsKeepWork(s, step, r, e);
    DocumentsKeepWork(s, step, r, e);
  }

  lemma RunStepKeepsWork(s: State, step: Step, r: nat)
    requires JobsIssued(s) && WorkInv(s) && r in s.runs && RunIssued(s, r) && PromotesAlone(s, step, r)
    ensures WorkInv(RunStep(s, step, r))
  {
    assert RunWork(s, r);
    WritesAreWork(s, step, r);
    MovesAreWork(s, step, r);
    OthersKeepMark(s, step, r);
    AppliedKeepsWork(s, step, r, EffectOf(s, step, r));
  }

  lemma SameIssue(s: State, t: State, d: string)
    requires t.issued == s.issued
    ensures HasIssue(t, d) <==> HasIssue(s, d)
  {
  }

  lemma DocumentWorkKept(s: State, step: Step, r: nat, e: Effect, d: string)
    requires JobsIssued(s) && r in s.runs && RunIssued(s, r) && RunWork(s, r) && d in s.docs && DocumentWork(s, d)
    requires WriteWork(s.runs[r], s.docs[s.runs[r].job.documentId], step, e)
    requires e.call.Some? ==> e.call.value.RenewCall? || e.call.value.ReleaseCall? || e.call.value.AcknowledgeCall?
    ensures DocumentWork(Applied(s, r, e), d)
  {
    var t := Applied(s, r, e);
    SameIssue(s, t, d);
    assert d == s.runs[r].job.documentId ==> HasIssue(s, d);
    if HasJob(s.jobs, d) {
      if !(e.call.Some? && e.call.value.AcknowledgeCall? && d == s.runs[r].job.documentId && Owns(s.jobs, s.runs[r])) {
        EffectKeepsJobs(s, r, e, d);
      }
    }
  }

  // ----- whole runs -----

  ghost predicate AllInv(s: State) {
    Inv(s) && MarksTrue(s) && WorkInv(s) && FileConsistent(s.jobs)
  }

  lemma StepKeepsAll(s: State, step: Step)
    requires AllInv(s) && !LosesJob(s, step)
    ensures AllInv(Next(s, step))
  {
    StepKeepsFile(s, step);
    StepKeepsInv(s, step);
    StepKeepsWork(s, step);
  }

  lemma StepKeepsWork(s: State, step: Step)
    requires Inv(s) && WorkInv(s) && !LosesJob(s, step)
    ensures WorkInv(Next(s, step))
  {
    if !IsRunStep(step) {
      ServiceKeepsWork(s, step);
    } else if step.run in s.runs {
      assert RunIssued(s, step.run);
      RunStepKeepsWork(s, step, step.run);
    }
  }

  lemma {:induction false} ExecuteKeepsAll(s: State, steps: seq<Step>)
    requires AllInv(s) && LosesNothing(s, steps)
    ensures AllInv(Execute(s, steps))
    decreases |steps|
  {
    if steps != [] {
      StepKeepsAll(s, steps[0]);
      ExecuteKeepsAll(Next(s, steps[0]), steps[1..]);
    }
  }

  lemma NothingLost(s: State)
    requires WorkInv(s)
    ensures NoLostWork(s)
  {
    forall d | IsStatus(s, d, {Queued, Processing})
      ensures HasJob(s.jobs, d)
    {
      assert DocumentWork(s, d);
    }
  }

  /** Whatever stalls, crashes and lapses: an unfinished document keeps a job. */
  lemma UnfinishedDocumentKeepsItsJob(now: int, policy: Policy, steps: seq<Step>, d: string)
    requires LosesNothing(Initial(now, policy), steps)
    requires IsStatus(Execute(Initial(now, policy), steps), d, {Queued, Processing})
    ensures HasJob(Execute(Initial(now, policy), steps).jobs, d)
  {
    ExecuteKeepsAll(Initial(now, policy), steps);
    NothingLost(Execute(Initial(now, policy), steps));
  }

  // ----- and the condition is exact -----

  lemma AcknowledgeRemoves(jobs: seq<Job>, run: Run, d: string)
    requires FileConsistent(jobs) && DistinctIds(jobs) && Owns(jobs, run)
    requires forall job :: job in jobs && job.id == run.job.id ==> job.documentId == d
    ensures !HasJob(AfterAcknowledge(jobs, run.job.id, run.workerId, Token(run)), d)
  {
    var job :| job in jobs && job.id == run.job.id && OwnedBy(job, run.workerId, Token(run));
    var i := IndexOfJob(jobs, run.job.id);
    assert i.Some? && jobs[i.value] == job;
    var after := jobs[..i.value] + jobs[i.value + 1..];
    forall other | other in after
      ensures other.documentId != d
    {
      var k :| 0 <= k < |after| && after[k] == other;
      assert after[k] == jobs[if k < i.value then k else k + 1];
    }
  }

  /** A run that takes a QUEUED document for UPLOADED loses its job. */
  lemma PromoteThenAcknowledge(s: State, r: nat, d: string) returns (more: seq<Step>)
    requires Inv(s) && MarksTrue(s) && FileConsistent(s.jobs) && WillPromote(s, r, d) && IsStatus(s, d, {Queued})
    ensures LosesNothing(s, more) && IsStatus(Execute(s, more), d, {Queued}) && !HasJob(Execute(s, more).jobs, d)
  {
    var t := Next(s, Promote(r));
    assert t == s.(runs := s.runs[r := s.runs[r].(point := Acknowledging)]);
    RunKeeps(s, Promote(r), r);
    AcknowledgeOnce(t, r, d);
    more := [Promote(r), Acknowledge(r)];
    assert more[1..] == [Acknowledge(r)];
    assert LosesNothing(t, [Acknowledge(r)]);
  }

  lemma AcknowledgeIs(s: State, r: nat)
    requires r in s.runs && s.runs[r].point.Acknowledging?
    ensures var run, t := s.runs[r], Next(s, Acknowledge(r));
            t.docs == s.docs && t.jobs == AfterAcknowledge(s.jobs, run.job.id, run.workerId, Token(run))
  {
  }

  lemma AcknowledgeOnce(s: State, r: nat, d: string)
    requires Inv(s) && FileConsistent(s.jobs) && WillAcknowledge(s, r, d)
    ensures LosesNothing(s, [Acknowledge(r)]) && Execute(s, [Acknowledge(r)]).docs == s.docs
    ensures !HasJob(Execute(s, [Acknowledge(r)]).jobs, d)
  {
    ExecuteOne(s, Acknowledge(r));
    AcknowledgeIs(s, r);
    assert RunIssued(s, r);
    AcknowledgeRemoves(s.jobs, s.runs[r], d);
    assert [Acknowledge(r)][1..] == [];
  }

  lemma RequeueLoses(s: State, d: string) returns (more: seq<Step>)
    requires AllInv(s) && LosesJob(s, Requeue(d))
    ensures LosesNothing(Next(s, Requeue(d)), more) && !NoLostWork(Execute(Next(s, Requeue(d)), more))
  {
    var t := Next(s, Requeue(d));
    assert IsStatus(t, d, {Queued});
    more := [];
    if HasJob(s.jobs, d) {
      var r :| WillAcknowledge(s, r, d);
      StepKeepsInv(s, Requeue(d));
      assert WillAcknowledge(t, r, d);
      AcknowledgeOnce(t, r, d);
      more := [Acknowledge(r)];
      assert IsStatus(Execute(t, more), d, {Queued});
    }
  }

  lemma MarkQueuedLoses(s: State, d: string) returns (more: seq<Step>)
    requires AllInv(s) && LosesJob(s, MarkQueued(d))
    ensures LosesNothing(Next(s, MarkQueued(d)), more) && !NoLostWork(Execute(Next(s, MarkQueued(d)), more))
  {
    var t := Next(s, MarkQueued(d));
    more := [];
    if IsStatus(s, d, {Uploaded}) {
      var r :| WillPromote(s, r, d);
      StepKeepsInv(s, MarkQueued(d));
      assert WillPromote(t, r, d) && IsStatus(t, d, {Queued});
      more := PromoteThenAcknowledge(t, r, d);
      assert IsStatus(Execute(t, more), d, {Queued});
    } else {
      RemovalNarrows(s.jobs, d, s.now);
      assert IsStatus(t, d, {Queued, Processing});
    }
  }

  lemma AgainLoses(s: State, d: string) returns (more: seq<Step>)
    requires LosesJob(s, WithdrawAgain(d))
    ensures LosesNothing(Next(s, WithdrawAgain(d)), more) && !NoLostWork(Execute(Next(s, WithdrawAgain(d)), more))
  {
    more := [];
    RemovalNarrows(s.jobs, d, s.now);
    assert IsStatus(Next(s, WithdrawAgain(d)), d, {Queued, Processing});
  }

  lemma PromoteMoves(s: State, r: nat)
    requires r in s.runs && s.runs[r].point.SawUploaded? && IsStatus(s, s.runs[r].job.documentId, {Uploaded})
    ensures var d, t := s.runs[r].job.documentId, Next(s, Promote(r));
            t.jobs == s.jobs && IsStatus(t, d, {Queued}) && forall q :: q in s.runs && q != r ==> q in t.runs && t.runs[q] == s.runs[q]
  {
  }

  lemma PromoteLoses(s: State, r: nat) returns (more: seq<Step>)
    requires AllInv(s) && LosesJob(s, Promote(r))
    ensures LosesNothing(Next(s, Promote(r)), more) && !NoLostWork(Execute(Next(s, Promote(r)), more))
  {
    var d := s.runs[r].job.documentId;
    var q :| q != r && WillPromote(s, q, d);
    var t := Next(s, Promote(r));
    StepKeepsInv(s, Promote(r));
    PromoteMoves(s, r);
    assert WillPromote(t, q, d);
    more := PromoteThenAcknowledge(t, q, d);
    assert IsStatus(Execute(t, more), d, {Queued});
  }

  /** Without another step that loses a job, some unfinished document can come to be without one. */
  ghost predicate CanLoseJob(s: State) {
    exists more :: LosesNothing(s, more) && !NoLostWork(Execute(s, more))
  }

  lemma LosingStepCanLose(s: State, step: Step)
    requires AllInv(s) && LosesJob(s, step)
    ensures CanLoseJob(Next(s, step))
  {
    var more;
    match step {
      case Requeue(d) => more := RequeueLoses(s, d);
      case MarkQueued(d) => more := MarkQueuedLoses(s, d);
      case WithdrawAgain(d) => more := AgainLoses(s, d);
      case Promote(r) => more := PromoteLoses(s, r);
    }
  }

  lemma CannotLose(s: State)
    requires AllInv(s)
    ensures !CanLoseJob(s)
  {
    forall more | LosesNothing(s, more)
      ensures NoLostWork(Execute(s, more))
    {
      ExecuteKeepsAll(s, more);
      NothingLost(Execute(s, more));
    }
  }

  /**
   * In every state that a run without such a step reaches: after a step, and without another one that
   * `LosesJob`, an unfinished document can come to be without a job if and only if the step `LosesJob`.
   */
  lemma JobIsLostIff(now: int, policy: Policy, steps: seq<Step>, step: Step)
    requires LosesNothing(Initial(now, policy), steps)
    ensures LosesJob(Execute(Initial(now, policy), steps), step) <==> CanLoseJob(Next(Execute(Initial(now, policy), steps), step))
  {
    var s := Execute(Initial(now, policy), steps);
    ExecuteKeepsAll(Initial(now, policy), steps);
    if LosesJob(s, step) {
      LosingStepCanLose(s, step);
    } else {
      StepKeepsAll(s, step);
      CannotLose(Next(s, step));
    }
  }

  // ----- and the job can be claimed again -----

  /** The job at i is among those that claims made one after the other at one time will get. */
  ghost predicate ClaimedInTurn(jobs: seq<Job>, i: nat, workerId: string, at: int, leaseMs: int)
    requires i < |jobs|
  {
    var after := DocumentLeases.ClaimTimes(jobs, workerId, at, leaseMs, DocumentLeases.CountClaimable(jobs, at));
    |after| == |jobs| && after[i] == ClaimedBy(jobs[i], workerId, at, leaseMs)
  }

  /** Once its availability time and its lease have passed, the document's job is claimed in its turn. */
  lemma UnfinishedDocumentCanBeClaimed(now: int, policy: Policy, steps: seq<Step>, d: string)
      returns (i: nat, from: int)
    requires LosesNothing(Initial(now, policy), steps)
    requires IsStatus(Execute(Initial(now, policy), steps), d, {Queued, Processing})
    ensures var jobs := Execute(Initial(now, policy), steps).jobs;
            i < |jobs| && jobs[i].documentId == d &&
            forall w, at, ms :: from <= at && 0 < ms ==> ClaimedInTurn(jobs, i, w, at, ms)
  {
    var jobs := Execute(Initial(now, policy), steps).jobs;
    UnfinishedDocumentKeepsItsJob(now, policy, steps, d);
    ExecuteKeepsAll(Initial(now, policy), steps);
    var job :| job in jobs && job.documentId == d;
    i :| 0 <= i < |jobs| && jobs[i] == job;
    var lease := job.leaseExpiresAt.GetOr(job.availableAt);
    from := if lease < job.availableAt then job.availableAt else lease;
    forall w, at, ms | from <= at && 0 < ms ensures ClaimedInTurn(jobs, i, w, at, ms) {
      DocumentLeases.RepeatedClaimsReachEveryJob(jobs, w, at, ms, i);
    }
  }
}
