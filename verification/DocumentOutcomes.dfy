/**
 * Consequences of the fence over whole runs: each PROCESSING spell gets at most one guarded
 * outcome, and when the runs of one worker id never overlap, a run's outcome takes effect only
 * while its own mark is the document's latest.
 *
 * A spell lasts from one PROCESSING mark of a document to the next.  The outcomes are COMPLETED,
 * FAILED, QUARANTINED and the retry; each clears the worker id, so the guard lets no second one
 * through until the document is marked again.
 */
module DocumentOutcomes {
  import opened Wrappers
  import opened DocumentQueue
  import opened DocumentWorker
  import opened DocumentFence

  predicate BeforeMark(run: Run) {
    run.point.Claimed? || run.point.SawUploaded? || run.point.Ready?
  }

  predicate AfterMark(run: Run) {
    run.point.Working? || run.point.SavedOutput? || run.point.Owned? || run.point.Conflict? ||
    run.point.Failing? || run.point.Dropped?
  }

  predicate MarkedBy(s: State, d: string, r: nat) {
    d in s.docs && s.docs[d].mark.Some? && s.docs[d].mark.value.run == r
  }

  // ----- at most one outcome per mark -----

  ghost predicate OutcomesOnce(s: State) {
    && (forall a, b :: 0 <= a < b < |s.outcomes| ==> s.outcomes[a] != s.outcomes[b])
    && (forall k :: 0 <= k < |s.outcomes| ==>
          s.outcomes[k].1 < s.nextRun &&
          (MarkedBy(s, s.outcomes[k].0, s.outcomes[k].1) ==> s.docs[s.outcomes[k].0].workerId.None?))
    && (forall r, k :: r in s.runs && BeforeMark(s.runs[r]) && 0 <= k < |s.outcomes| ==> s.outcomes[k].1 != r)
  }

  /** Steps other than the mark move no run back before it, nor past it. */
  ghost predicate PointsAdvance(s: State, t: State) {
    forall r :: r in t.runs && r in s.runs ==>
      (BeforeMark(t.runs[r]) ==> BeforeMark(s.runs[r])) && (AfterMark(t.runs[r]) ==> AfterMark(s.runs[r]))
  }

  lemma EffectAdvances(s: State, step: Step, r: nat)
    requires !step.MarkProcessing? && r in s.runs
    ensures var e := EffectOf(s, step, r);
            e.point.Some? ==>
              var moved := s.runs[r].(point := e.point.value);
              (BeforeMark(moved) ==> BeforeMark(s.runs[r])) && (AfterMark(moved) ==> AfterMark(s.runs[r]))
  {
  }

  lemma QuietAdvance(s: State, step: Step, r: nat)
    requires !step.MarkProcessing? && r in s.runs
    ensures PointsAdvance(s, RunStep(s, step, r))
  {
    EffectAdvances(s, step, r);
    AppliedAdvances(s, r, EffectOf(s, step, r));
  }

  lemma AppliedAdvances(s: State, r: nat, e: Effect)
    requires r in s.runs
    requires e.point.Some? ==>
               var moved := s.runs[r].(point := e.point.value);
               (BeforeMark(moved) ==> BeforeMark(s.runs[r])) && (AfterMark(moved) ==> AfterMark(s.runs[r]))
    ensures PointsAdvance(s, Applied(s, r, e))
  {
  }

  lemma QuietKeepsOutcomes(s: State, t: State)
    requires OutcomesOnce(s) && SameClaims(s, t) && PointsAdvance(s, t) && t.outcomes == s.outcomes
    ensures OutcomesOnce(t)
  {
    forall k | 0 <= k < |t.outcomes|
      ensures MarkedBy(t, t.outcomes[k].0, t.outcomes[k].1) ==> t.docs[t.outcomes[k].0].workerId.None?
    {
      assert s.outcomes[k].0 in s.docs ==> MarkedBy(t, t.outcomes[k].0, t.outcomes[k].1) ==> MarkedBy(s, s.outcomes[k].0, s.outcomes[k].1);
    }
  }

  predicate WritesOutcome(s: State, step: Step, r: nat)
    requires r in s.runs
  {
    ((step.Complete? && s.runs[r].point.Owned?) || (step.WriteOutcome? && s.runs[r].point.Dropped?)) &&
    GuardPasses(s, s.runs[r])
  }

  lemma OutcomesAreWritten(s: State, step: Step, r: nat)
    requires IsRunStep(step) && r in s.runs
    ensures var e := EffectOf(s, step, r);
            (e.outcome <==> WritesOutcome(s, step, r)) && (e.outcome ==> e.doc.Some? && e.doc.value.workerId.None?)
  {
  }

  lemma QuietOutcomes(s: State, step: Step, r: nat)
    requires IsRunStep(step) && r in s.runs && !WritesOutcome(s, step, r)
    ensures RunStep(s, step, r).outcomes == s.outcomes
  {
    OutcomesAreWritten(s, step, r);
  }

  lemma LoggedOutcome(s: State, step: Step, r: nat)
    requires IsRunStep(step) && r in s.runs && WritesOutcome(s, step, r) && MarkIssued(s, s.runs[r].job.documentId)
    ensures var t := RunStep(s, step, r);
            var d := s.runs[r].job.documentId;
            d in s.docs && d in t.docs && s.docs[d].mark.Some? &&
            t.outcomes == s.outcomes + [(d, s.docs[d].mark.value.run)] &&
            t.docs[d].workerId.None? && t.docs[d].mark == s.docs[d].mark &&
            s.docs[d].workerId.Some? && t.nextRun == s.nextRun
  {
    OutcomesAreWritten(s, step, r);
    OthersKeepMark(s, step, r);
  }

  /** No active run is before its mark and yet named by a mark. */
  ghost predicate MarksFollow(s: State) {
    forall r, d :: r in s.runs && MarkedBy(s, d, r) ==> !BeforeMark(s.runs[r])
  }

  /** One more outcome, for a mark whose worker id it clears. */
  lemma LoggedKeepsOutcomes(s: State, t: State, d: string)
    requires OutcomesOnce(s) && MarksFollow(s) && SameClaims(s, t) && PointsAdvance(s, t)
    requires d in s.docs && d in t.docs && s.docs[d].mark.Some? && s.docs[d].workerId.Some?
    requires t.outcomes == s.outcomes + [(d, s.docs[d].mark.value.run)]
    requires t.docs[d].workerId.None? && t.docs[d].mark == s.docs[d].mark && s.docs[d].mark.value.run < s.nextRun
    ensures OutcomesOnce(t)
  {
    QuietKeepsOutcomes(s, t.(outcomes := s.outcomes));
    assert MarkedBy(s, d, s.docs[d].mark.value.run);
  }

  lemma OutcomeLoggedOnce(s: State, step: Step, r: nat)
    requires Inv(s) && OutcomesOnce(s) && IsRunStep(step) && r in s.runs && WritesOutcome(s, step, r)
    requires SameClaims(s, RunStep(s, step, r)) && PointsAdvance(s, RunStep(s, step, r)) && MarksFollow(s)
    ensures OutcomesOnce(RunStep(s, step, r))
  {
    var d := s.runs[r].job.documentId;
    assert MarkIssued(s, d);
    LoggedOutcome(s, step, r);
    LoggedKeepsOutcomes(s, RunStep(s, step, r), d);
  }

  lemma RunStepKeepsOutcomes(s: State, step: Step, r: nat)
    requires Inv(s) && OutcomesOnce(s) && MarksFollow(s) && IsRunStep(step) && r in s.runs
    ensures OutcomesOnce(RunStep(s, step, r)) && MarksFollow(RunStep(s, step, r))
  {
    if step.MarkProcessing? {
      MarkKeepsOutcomes(s, r);
    } else {
      QuietRunStep(s, step, r);
      QuietAdvance(s, step, r);
      FollowKept(s, RunStep(s, step, r));
      if WritesOutcome(s, step, r) {
        OutcomeLoggedOnce(s, step, r);
      } else {
        QuietOutcomes(s, step, r);
        QuietKeepsOutcomes(s, RunStep(s, step, r));
      }
    }
  }

  lemma FollowKept(s: State, t: State)
    requires MarksFollow(s) && SameClaims(s, t) && PointsAdvance(s, t)
    ensures MarksFollow(t)
  {
    forall r, d | r in t.runs && MarkedBy(t, d, r) ensures !BeforeMark(t.runs[r]) {
      assert d in s.docs ==> MarkedBy(s, d, r);
    }
  }

  lemma MarkKeepsOutcomes(s: State, r: nat)
    requires Inv(s) && OutcomesOnce(s) && MarksFollow(s) && r in s.runs
    ensures OutcomesOnce(RunStep(s, MarkProcessing(r), r)) && MarksFollow(RunStep(s, MarkProcessing(r), r))
  {
    var t := RunStep(s, MarkProcessing(r), r);
    assert forall d, q :: MarkedBy(t, d, q) ==> MarkedBy(s, d, q) || (q == r && s.runs[r].point.Ready?);
  }

  lemma ServiceTouches(s: State, step: Step)
    requires !IsRunStep(step) && !step.Claim?
    ensures ServiceStep(s, step).runs == s.runs && ServiceStep(s, step).outcomes == s.outcomes
    ensures step.EnqueueUploaded? || step.EnqueueAgain? ==> ServiceStep(s, step).docs == s.docs
    ensures ServiceStep(s, step).nextRun == s.nextRun
  {
  }

  lemma ClaimKeepsOutcomes(s: State, step: Step)
    requires Inv(s) && OutcomesOnce(s) && MarksFollow(s) && step.Claim?
    ensures OutcomesOnce(ServiceStep(s, step)) && MarksFollow(ServiceStep(s, step))
  {
    var t := ServiceStep(s, step);
    assert forall d, q :: MarkedBy(t, d, q) ==> MarkedBy(s, d, q);
    forall d, q: nat | MarkedBy(s, d, q) ensures q < s.nextRun { assert MarkIssued(s, d); }
  }

  lemma ServiceKeepsOutcomes(s: State, step: Step)
    requires Inv(s) && OutcomesOnce(s) && MarksFollow(s) && !IsRunStep(step)
    ensures OutcomesOnce(ServiceStep(s, step)) && MarksFollow(ServiceStep(s, step))
  {
    var t := ServiceStep(s, step);
    if step.Claim? {
      ClaimKeepsOutcomes(s, step);
    } else {
      ServiceTouches(s, step);
      if step.EnqueueUploaded? || step.EnqueueAgain? {
        assert forall d, q :: MarkedBy(t, d, q) <==> MarkedBy(s, d, q);
      } else {
        QuietServiceStep(s, step);
        FollowKept(s, t);
        QuietKeepsOutcomes(s, t);
      }
    }
  }

  lemma {:induction false} ExecuteKeepsOutcomes(s: State, steps: seq<Step>)
    requires Inv(s) && MarksTrue(s) && OutcomesOnce(s) && MarksFollow(s)
    ensures OutcomesOnce(Execute(s, steps))
    decreases |steps|
  {
    if steps != [] {
      if !IsRunStep(steps[0]) {
        ServiceKeeps(s, steps[0]);
        ServiceKeepsOutcomes(s, steps[0]);
      } else if steps[0].run in s.runs {
        RunKeeps(s, steps[0], steps[0].run);
        RunStepKeepsOutcomes(s, steps[0], steps[0].run);
      }
      ExecuteKeepsOutcomes(Next(s, steps[0]), steps[1..]);
    }
  }

  /** In every run, no PROCESSING mark of a document receives two outcomes. */
  lemma AtMostOneOutcomePerSpell(now: int, policy: Policy, steps: seq<Step>, a: nat, b: nat)
    requires a < b < |Execute(Initial(now, policy), steps).outcomes|
    ensures Execute(Initial(now, policy), steps).outcomes[a] != Execute(Initial(now, policy), steps).outcomes[b]
  {
    ExecuteKeepsOutcomes(Initial(now, policy), steps);
  }

  // ----- an outcome under a run's own mark -----

  /** The document carries the run's (worker id, token); then only its status can make the guard refuse. */
  predicate PairFits(s: State, run: Run) {
    var d := run.job.documentId;
    d in s.docs && s.docs[d].workerId == Some(run.workerId) && s.docs[d].token == Token(run)
  }

  /** Wherever the pair of a run past its mark fits, the mark is the run's own. */
  ghost predicate FitsOwnMark(s: State) {
    forall r :: r in s.runs && AfterMark(s.runs[r]) && PairFits(s, s.runs[r]) ==> MarkedBy(s, s.runs[r].job.documentId, r)
  }

  predicate Marks(s: State, r: nat) {
    r in s.runs && s.runs[r].point.Ready? && IsStatus(s, s.runs[r].job.documentId, {Queued, Processing})
  }

  /** A PROCESSING mark under a pair that another run of the document, past its own mark, bears too. */
  ghost predicate Clashes(s: State, step: Step) {
    step.MarkProcessing? && Marks(s, step.run) &&
    exists q :: q in s.runs && q != step.run && AfterMark(s.runs[q]) &&
      s.runs[q].job.documentId == s.runs[step.run].job.documentId &&
      s.runs[q].workerId == s.runs[step.run].workerId && Token(s.runs[q]) == Token(s.runs[step.run])
  }

  ghost predicate NoClash(s: State, steps: seq<Step>)
    decreases |steps|
  {
    steps == [] || (!Clashes(s, steps[0]) && NoClash(Next(s, steps[0]), steps[1..]))
  }

  lemma QuietKeepsFit(s: State, t: State)
    requires FitsOwnMark(s) && SameClaims(s, t) && PointsAdvance(s, t)
    ensures FitsOwnMark(t)
  {
    forall r | r in t.runs && AfterMark(t.runs[r]) && PairFits(t, t.runs[r])
      ensures MarkedBy(t, t.runs[r].job.documentId, r)
    {
      assert PairFits(s, s.runs[r]);
    }
  }

  /** The state after run r has marked its document. */
  lemma MarkIs(s: State, r: nat)
    requires Marks(s, r)
    ensures var d, t := s.runs[r].job.documentId, Next(s, MarkProcessing(r));
            t.runs == s.runs[r := s.runs[r].(point := Working(s.runs[r].point.attempts + 1))] &&
            d in t.docs && MarkedBy(t, d, r) && PairFits(t, s.runs[r]) && t.docs[d].status == Processing &&
            forall e :: e in s.docs && e != d ==> e in t.docs && t.docs[e] == s.docs[e]
  {
  }

  /** A mark leaves every fitting pair with its own run if and only if it does not clash. */
  lemma MarkFitsIff(s: State, r: nat)
    requires FitsOwnMark(s) && MarkedExist(s) && Marks(s, r)
    ensures FitsOwnMark(Next(s, MarkProcessing(r))) <==> !Clashes(s, MarkProcessing(r))
  {
    var d, t := s.runs[r].job.documentId, Next(s, MarkProcessing(r));
    MarkIs(s, r);
    if Clashes(s, MarkProcessing(r)) {
      var q :| q in s.runs && q != r && AfterMark(s.runs[q]) && s.runs[q].job.documentId == d &&
        s.runs[q].workerId == s.runs[r].workerId && Token(s.runs[q]) == Token(s.runs[r]);
      assert AfterMark(t.runs[q]) && PairFits(t, t.runs[q]) && !MarkedBy(t, d, q);
    } else {
      forall q | q in t.runs && AfterMark(t.runs[q]) && PairFits(t, t.runs[q])
        ensures MarkedBy(t, t.runs[q].job.documentId, q)
      {
        if q != r && t.runs[q].job.documentId != d {
          assert PairFits(s, s.runs[q]) && MarkedBy(s, s.runs[q].job.documentId, q);
        }
      }
    }
  }

  /** A run past its mark has a document. */
  ghost predicate MarkedExist(s: State) {
    forall q :: q in s.runs && AfterMark(s.runs[q]) ==> s.runs[q].job.documentId in s.docs
  }

  lemma NewRunKeepsFit(s: State, i: nat, job: Job, w: string)
    requires FitsOwnMark(s) && i < |s.jobs| && s.nextRun !in s.runs
    ensures FitsOwnMark(WithClaim(s, i, job, w))
  {
    var t := WithClaim(s, i, job, w);
    forall r | r in t.runs && AfterMark(t.runs[r]) && PairFits(t, t.runs[r])
      ensures MarkedBy(t, t.runs[r].job.documentId, r)
    {
      assert r in s.runs && PairFits(s, s.runs[r]);
    }
  }

  lemma ClaimKeepsFit(s: State, step: Step)
    requires Inv(s) && FitsOwnMark(s) && step.Claim?
    ensures FitsOwnMark(ServiceStep(s, step))
  {
    var i := OldestClaimable(s.jobs, step.at, |s.jobs|);
    if step.leaseMs > 0 && step.at <= s.now && i.Some? {
      assert s.nextRun in s.runs ==> RunIssued(s, s.nextRun);
      NewRunKeepsFit(s, i.value, ClaimedBy(s.jobs[i.value], step.workerId, step.at, step.leaseMs), step.workerId);
    }
  }

  lemma SameDocsKeepFit(s: State, t: State)
    requires FitsOwnMark(s) && t.runs == s.runs && t.docs == s.docs
    ensures FitsOwnMark(t)
  {
    forall r | r in t.runs && AfterMark(t.runs[r]) && PairFits(t, t.runs[r])
      ensures MarkedBy(t, t.runs[r].job.documentId, r)
    {
      assert PairFits(s, s.runs[r]);
    }
  }

  lemma ServiceKeepsFit(s: State, step: Step)
    requires FitsOwnMark(s) && JobsIssued(s) && !IsRunStep(step) && !step.Claim?
    ensures FitsOwnMark(ServiceStep(s, step))
  {
    ServiceTouches(s, step);
    if step.EnqueueUploaded? || step.EnqueueAgain? {
      SameDocsKeepFit(s, ServiceStep(s, step));
    } else {
      QuietServiceStep(s, step);
      QuietKeepsFit(s, ServiceStep(s, step));
    }
  }

  /** A step other than an effective mark keeps every fitting pair with its own run. */
  lemma OtherStepsKeepFit(s: State, step: Step)
    requires Inv(s) && FitsOwnMark(s) && !(step.MarkProcessing? && Marks(s, step.run))
    ensures FitsOwnMark(Next(s, step))
  {
    if step.Claim? {
      ClaimKeepsFit(s, step);
    } else if !IsRunStep(step) {
      ServiceKeepsFit(s, step);
    } else if step.run in s.runs {
      if step.MarkProcessing? {
        RefusedMark(s, step.run);
      } else {
        QuietRunStep(s, step, step.run);
        QuietAdvance(s, step, step.run);
      }
      QuietKeepsFit(s, RunStep(s, step, step.run));
    }
  }

  lemma RefusedMark(s: State, r: nat)
    requires r in s.runs && !Marks(s, r)
    ensures var t := RunStep(s, MarkProcessing(r), r); SameClaims(s, t) && PointsAdvance(s, t)
  {
    var e := EffectOf(s, MarkProcessing(r), r);
    AppliedSameClaims(s, r, e);
    AppliedAdvances(s, r, e);
  }

  lemma EffectHasDocument(s: State, step: Step, r: nat)
    requires r in s.runs
    ensures var e := EffectOf(s, step, r);
            e.point.Some? && AfterMark(s.runs[r].(point := e.point.value)) && !AfterMark(s.runs[r]) ==>
              s.runs[r].job.documentId in s.docs
  {
  }

  lemma AppliedKeepsExist(s: State, r: nat, e: Effect)
    requires MarkedExist(s) && r in s.runs
    requires e.point.Some? && AfterMark(s.runs[r].(point := e.point.value)) && !AfterMark(s.runs[r]) ==>
               s.runs[r].job.documentId in s.docs
    ensures MarkedExist(Applied(s, r, e))
  {
  }

  lemma ServiceKeepsExist(s: State, step: Step)
    requires MarkedExist(s) && !IsRunStep(step)
    ensures MarkedExist(ServiceStep(s, step))
  {
  }

  ghost predicate FitInv(s: State) {
    Inv(s) && MarksTrue(s) && MarkedExist(s) && FitsOwnMark(s)
  }

  /** From any state in which fitting pairs mean own marks: the next state is one again if and only if the step does not clash. */
  lemma StepFitsIff(s: State, step: Step)
    requires FitInv(s)
    ensures FitInv(Next(s, step)) <==> !Clashes(s, step)
  {
    StepKeepsInv(s, step);
    if !IsRunStep(step) {
      ServiceKeepsExist(s, step);
    } else if step.run in s.runs {
      EffectHasDocument(s, step, step.run);
      AppliedKeepsExist(s, step.run, EffectOf(s, step, step.run));
    }
    if step.MarkProcessing? && Marks(s, step.run) {
      MarkFitsIff(s, step.run);
    } else {
      OtherStepsKeepFit(s, step);
    }
  }

  lemma {:induction false} ExecuteKeepsFit(s: State, steps: seq<Step>)
    requires FitInv(s) && NoClash(s, steps)
    ensures FitInv(Execute(s, steps))
    decreases |steps|
  {
    if steps != [] {
      StepFitsIff(s, steps[0]);
      ExecuteKeepsFit(Next(s, steps[0]), steps[1..]);
    }
  }

  /** Without a clash, an outcome takes effect only while the run's own mark is the latest. */
  lemma OutcomeNeedsOwnMark(now: int, policy: Policy, steps: seq<Step>, step: Step)
    requires NoClash(Initial(now, policy), steps)
    requires IsRunStep(step) && step.run in Execute(Initial(now, policy), steps).runs
    requires WritesOutcome(Execute(Initial(now, policy), steps), step, step.run)
    ensures var s := Execute(Initial(now, policy), steps);
            MarkedBy(s, s.runs[step.run].job.documentId, step.run)
  {
    ExecuteKeepsFit(Initial(now, policy), steps);
  }

  // ----- and the condition is exact -----

  /** The step is an outcome that takes effect on a mark that is not its run's own. */
  predicate HitsForeignMark(s: State, step: Step) {
    IsRunStep(step) && step.run in s.runs && WritesOutcome(s, step, step.run) &&
    !MarkedBy(s, s.runs[step.run].job.documentId, step.run)
  }

  /** Run q stands at `point`; its document and everybody's mark are as in s. */
  ghost predicate OnlyMoved(s: State, t: State, q: nat, point: Point)
    requires q in s.runs
  {
    t.docs == s.docs && t.runs == s.runs[q := s.runs[q].(point := point)]
  }

  lemma ThrowOnlyMoves(s: State, q: nat)
    requires q in s.runs && AfterMark(s.runs[q]) && !s.runs[q].point.Failing? && !s.runs[q].point.Dropped?
    ensures OnlyMoved(s, Next(s, Throw(q, true)), q, Failing(s.runs[q].point.attempts, true))
  {
  }

  lemma SkipDropOnlyMoves(s: State, q: nat)
    requires q in s.runs && s.runs[q].point.Failing?
    ensures OnlyMoved(s, Next(s, SkipDrop(q)), q, Dropped(s.runs[q].point.attempts, s.runs[q].point.retryable))
  {
  }

  lemma NoClashAppend(s: State, steps: seq<Step>, step: Step)
    requires NoClash(s, steps) && !step.MarkProcessing?
    ensures NoClash(s, steps + [step]) && Execute(s, steps + [step]) == Next(Execute(s, steps), step)
    decreases |steps|
  {
    if steps == [] {
      assert steps + [step] == [step] && [step][1..] == [];
      assert Execute(Next(s, step), []) == Next(s, step) && NoClash(Next(s, step), []);
    } else {
      assert (steps + [step])[1..] == steps[1..] + [step];
      NoClashAppend(Next(s, steps[0]), steps[1..], step);
    }
  }

  /** A run past its mark whose pair fits a PROCESSING document can come to write an outcome on it. */
  lemma ToOutcome(s: State, q: nat) returns (steps: seq<Step>)
    requires q in s.runs && AfterMark(s.runs[q]) && GuardPasses(s, s.runs[q])
    ensures NoClash(s, steps)
    ensures var t := Execute(s, steps);
            t.docs == s.docs && q in t.runs && t.runs[q].job == s.runs[q].job && WritesOutcome(t, WriteOutcome(q), q)
  {
    steps := [];
    if !s.runs[q].point.Failing? && !s.runs[q].point.Dropped? {
      ThrowOnlyMoves(s, q);
      NoClashAppend(s, steps, Throw(q, true));
      steps := steps + [Throw(q, true)];
    }
    var t := Execute(s, steps);
    if t.runs[q].point.Failing? {
      SkipDropOnlyMoves(t, q);
      NoClashAppend(s, steps, SkipDrop(q));
      steps := steps + [SkipDrop(q)];
    }
  }

  lemma ClashHitsForeignMark(s: State, r: nat) returns (more: seq<Step>, last: Step)
    requires Clashes(s, MarkProcessing(r))
    ensures NoClash(Next(s, MarkProcessing(r)), more) && HitsForeignMark(Execute(Next(s, MarkProcessing(r)), more), last)
  {
    var t := Next(s, MarkProcessing(r));
    MarkIs(s, r);
    var q :| q in s.runs && q != r && AfterMark(s.runs[q]) && s.runs[q].job.documentId == s.runs[r].job.documentId &&
      s.runs[q].workerId == s.runs[r].workerId && Token(s.runs[q]) == Token(s.runs[r]);
    assert t.runs[q] == s.runs[q] && GuardPasses(t, t.runs[q]);
    more := ToOutcome(t, q);
    last := WriteOutcome(q);
  }

  /** Without a further clash, an outcome can come to take effect on another run's mark. */
  ghost predicate CanHitForeignMark(s: State) {
    exists more, last :: NoClash(s, more) && HitsForeignMark(Execute(s, more), last)
  }

  lemma FitHitsNoForeignMark(s: State)
    requires FitInv(s)
    ensures !CanHitForeignMark(s)
  {
    forall more, last | NoClash(s, more)
      ensures !HitsForeignMark(Execute(s, more), last)
    {
      ExecuteKeepsFit(s, more);
      FitMeansOwn(Execute(s, more), last);
    }
  }

  lemma FitMeansOwn(s: State, step: Step)
    requires FitsOwnMark(s)
    ensures !HitsForeignMark(s, step)
  {
    if IsRunStep(step) && step.run in s.runs && WritesOutcome(s, step, step.run) {
      assert AfterMark(s.runs[step.run]) && PairFits(s, s.runs[step.run]);
    }
  }

  /**
   * In every state that a run without a clash reaches: after a step an outcome can come to take effect
   * on another run's mark, without another clash, if and only if the step clashes.
   */
  lemma ForeignOutcomeIff(now: int, policy: Policy, steps: seq<Step>, step: Step)
    requires NoClash(Initial(now, policy), steps)
    ensures Clashes(Execute(Initial(now, policy), steps), step) <==>
            CanHitForeignMark(Next(Execute(Initial(now, policy), steps), step))
  {
    var s := Execute(Initial(now, policy), steps);
    ExecuteKeepsFit(Initial(now, policy), steps);
    if Clashes(s, step) {
      ClashCanHit(s, step);
    } else {
      StepFitsIff(s, step);
      FitHitsNoForeignMark(Next(s, step));
    }
  }

  lemma ClashCanHit(s: State, step: Step)
    requires Clashes(s, step)
    ensures CanHitForeignMark(Next(s, step))
  {
    assert step == MarkProcessing(step.run);
    var more, last := ClashHitsForeignMark(s, step.run);
  }

  // ----- workers that are sequential processes never clash -----

  predicate StartsSecondRun(s: State, step: Step) {
    step.Claim? && exists r :: r in s.runs && s.runs[r].workerId == step.workerId
  }

  predicate SequentialWorkers(s: State, steps: seq<Step>)
    decreases |steps|
  {
    steps == [] || (!StartsSecondRun(s, steps[0]) && SequentialWorkers(Next(s, steps[0]), steps[1..]))
  }

  ghost predicate OneRunEach(s: State) {
    forall r, q :: r in s.runs && q in s.runs && s.runs[r].workerId == s.runs[q].workerId ==> r == q
  }

  lemma StepKeepsOneRunEach(s: State, step: Step)
    requires OneRunEach(s) && !StartsSecondRun(s, step)
    ensures OneRunEach(Next(s, step))
  {
    if IsRunStep(step) && step.run in s.runs {
      AppliedKeepsWorkers(s, step.run, EffectOf(s, step, step.run));
    } else if !IsRunStep(step) && !step.Claim? {
      ServiceTouches(s, step);
    }
  }

  lemma AppliedKeepsWorkers(s: State, r: nat, e: Effect)
    requires OneRunEach(s) && r in s.runs
    ensures OneRunEach(Applied(s, r, e))
  {
  }

  lemma {:induction false} SequentialWorkersNeverClash(s: State, steps: seq<Step>)
    requires OneRunEach(s) && SequentialWorkers(s, steps)
    ensures NoClash(s, steps)
    decreases |steps|
  {
    if steps != [] {
      StepKeepsOneRunEach(s, steps[0]);
      SequentialWorkersNeverClash(Next(s, steps[0]), steps[1..]);
    }
  }
}
