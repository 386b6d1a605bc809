/**
 * Concrete interleavings in which a document property that looks true fails: why the theorems
 * need the conditions `LosesNothing`, `NoTakeover` and `NoClash`.
 */
module DocumentRaces {
  import opened Wrappers
  import opened DocumentQueue
  import opened DocumentWorker
  import opened DocumentSteps
  import opened DocumentNoLostWork
  import opened DocumentOutcomes
  import opened DocumentDerivatives

  const Retries: Policy := Policy(3, 1000, 60000)
  const Start: State := Initial(0, Retries)

  /** A run that reaches s, made one step longer. */
  lemma Extend(steps: seq<Step>, s: State, step: Step) returns (more: seq<Step>)
    requires Execute(Start, steps) == s
    ensures Execute(Start, more) == Next(s, step)
  {
    more := steps + [step];
    ExecuteAppend(Start, steps, [step]);
    ExecuteOne(s, step);
  }

  // ----- the states on the way: one document "d" -----

  const Fresh: Document := Document(Uploaded, 0, None, 0, None)
  const J: Job := Job("j", "d", 0, 0, 0, 0, false, None, None)
  const JA: Job := ClaimedBy(J, "a", 0, 1)
  const JB: Job := ClaimedBy(JA, "b", 1, 1)
  const MarkedA: Document := Document(Processing, 1, Some("a"), 1, Some(Mark(0, "j", "a", 1)))
  const MarkedB: Document := Document(Processing, 2, Some("b"), 2, Some(Mark(1, "j", "b", 2)))

  /** A state whose only job ever is "j". */
  function With(now: int, jobs: seq<Job>, doc: Document, derivatives: set<string>, runs: map<nat, Run>,
                nextRun: nat, token: nat, outcomes: seq<(string, nat)>): State {
    State(now, Retries, jobs, map["d" := doc], derivatives, runs, nextRun, map["j" := Issue("d", token)], {}, {}, outcomes)
  }

  const JustEnqueued: State := With(0, [J], Fresh, {}, map[], 0, 0, []).(submitted := {"d"})
  const InQueue: State := With(0, [J], Fresh.(status := Queued), {}, map[], 0, 0, [])
  const WorkingA: State := With(0, [JA], MarkedA, {}, map[0 := Run(JA, "a", Working(1))], 1, 1, [])

  lemma Enqueue()
    ensures Next(Next(Start, Create("d")), EnqueueUploaded("d", "j")) == JustEnqueued
    ensures Next(JustEnqueued, MarkQueued("d")) == InQueue
  {
  }

  lemma ReachEnqueued() returns (steps: seq<Step>)
    ensures Execute(Start, steps) == JustEnqueued
  {
    steps := Extend([], Start, Create("d"));
    steps := Extend(steps, Next(Start, Create("d")), EnqueueUploaded("d", "j"));
    Enqueue();
  }

  const ClaimedA: State := With(0, [JA], InQueue.docs["d"], {}, map[0 := Run(JA, "a", Claimed)], 1, 1, [])
  const ReadyA: State := With(0, [JA], InQueue.docs["d"], {}, map[0 := Run(JA, "a", Ready(0))], 1, 1, [])

  lemma ClaimQueued()
    ensures Next(InQueue, Claim("a", 0, 1)) == ClaimedA
  {
  }

  lemma ReadFirst()
    ensures Next(ClaimedA, Read(0)) == ReadyA
  {
  }

  lemma MarkFirst()
    ensures Next(ReadyA, MarkProcessing(0)) == WorkingA
  {
  }

  lemma ReachWorking() returns (steps: seq<Step>)
    ensures Execute(Start, steps) == WorkingA
  {
    steps := ReachEnqueued();
    Enqueue();
    ClaimQueued();
    ReadFirst();
    MarkFirst();
    steps := Extend(steps, JustEnqueued, MarkQueued("d"));
    steps := Extend(steps, InQueue, Claim("a", 0, 1));
    steps := Extend(steps, ClaimedA, Read(0));
    steps := Extend(steps, ReadyA, MarkProcessing(0));
  }

  // ----- a worker claims the job while the upload service is still marking the document -----

  const EarlyRead: State := With(0, [JA], Fresh, {}, map[0 := Run(JA, "a", SawUploaded)], 1, 1, []).(submitted := {"d"})
  const EarlyAck: State := With(0, [JA], Fresh.(status := Queued), {}, map[0 := Run(JA, "a", Acknowledging)], 1, 1, [])

  lemma ClaimEarly()
    ensures Next(Next(JustEnqueued, Claim("a", 0, 1)), Read(0)) == EarlyRead
  {
  }

  const EarlyQueued: State := EarlyRead.(docs := map["d" := Fresh.(status := Queued)], submitted := {})

  lemma QueueLate()
    ensures Next(EarlyRead, MarkQueued("d")) == EarlyQueued
  {
  }

  lemma PromoteLate()
    ensures Next(EarlyQueued, Promote(0)) == EarlyAck
  {
  }

  lemma AcknowledgeEarly()
    ensures Next(EarlyAck, Acknowledge(0)).jobs == [] && Next(EarlyAck, Acknowledge(0)).docs == EarlyAck.docs
  {
  }

  /** A QUEUED document without a job: the worker claimed the job of an UPLOADED document. */
  lemma UploadRaceLosesJob()
    ensures exists steps :: IsStatus(Execute(Start, steps), "d", {Queued}) && Execute(Start, steps).jobs == []
  {
    var steps := ReachEnqueued();
    steps := Extend(steps, JustEnqueued, Claim("a", 0, 1));
    steps := Extend(steps, Next(JustEnqueued, Claim("a", 0, 1)), Read(0));
    ClaimEarly();
    QueueLate();
    steps := Extend(steps, EarlyRead, MarkQueued("d"));
    PromoteLate();
    steps := Extend(steps, EarlyQueued, Promote(0));
    AcknowledgeEarly();
    steps := Extend(steps, EarlyAck, Acknowledge(0));
    assert IsStatus(Execute(Start, steps), "d", {Queued}) && Execute(Start, steps).jobs == [];
  }

  // ----- a finished document is requeued before its job is acknowledged -----

  const OwnedA: State := With(0, [JA], MarkedA, {"d"}, map[0 := Run(JA, "a", Owned(1))], 1, 1, [])
  const DoneA: State :=
    With(0, [JA], MarkedA.(status := Completed, workerId := None), {"d"}, map[0 := Run(JA, "a", Acknowledging)], 1, 1, [("d", 0)])

  lemma SaveAndCheck()
    ensures Next(Next(WorkingA, Save(0)), AssertOwned(0)) == OwnedA
  {
  }

  const RequeuedA: State := DoneA.(docs := map["d" := DoneA.docs["d"].(status := Queued)])

  lemma CompleteOwned()
    ensures Next(OwnedA, Complete(0)) == DoneA
  {
  }

  /** The upsert finds the job that is about to be acknowledged, and adds nothing. */
  lemma RequeueFindsOldJob()
    ensures Next(DoneA, EnqueueAgain("d", "k")) == DoneA
    ensures Next(DoneA, Requeue("d")) == RequeuedA
  {
  }

  lemma AcknowledgeRequeued()
    ensures var s := Next(RequeuedA, Acknowledge(0)); s.jobs == [] && IsStatus(s, "d", {Queued})
  {
  }

  lemma ReachOwned() returns (steps: seq<Step>)
    ensures Execute(Start, steps) == OwnedA
  {
    steps := ReachWorking();
    steps := Extend(steps, WorkingA, Save(0));
    steps := Extend(steps, Next(WorkingA, Save(0)), AssertOwned(0));
    SaveAndCheck();
  }

  /** A QUEUED document without a job: reprocessing found the old job and the worker then removed it. */
  lemma ReprocessRaceLosesJob()
    ensures exists steps :: IsStatus(Execute(Start, steps), "d", {Queued}) && Execute(Start, steps).jobs == []
  {
    var steps := ReachOwned();
    CompleteOwned();
    steps := Extend(steps, OwnedA, Complete(0));
    RequeueFindsOldJob();
    steps := Extend(steps, DoneA, EnqueueAgain("d", "k"));
    steps := Extend(steps, DoneA, Requeue("d"));
    steps := Extend(steps, RequeuedA, Acknowledge(0));
    AcknowledgeRequeued();
    assert IsStatus(Execute(Start, steps), "d", {Queued}) && Execute(Start, steps).jobs == [];
  }

  // ----- a second worker takes the job over -----

  /** Worker "a" is stalled at `point`; worker "b" has taken the job over, and stands at `pointB`. */
  function Taken(doc: Document, derivatives: set<string>, point: Point, pointB: Point, outcomes: seq<(string, nat)>): State {
    With(1, [JB], doc, derivatives, map[0 := Run(JA, "a", point), 1 := Run(JB, "b", pointB)], 2, 2, outcomes)
  }

  lemma TakeOver(stalled: State, point: Point)
    requires stalled == With(0, [JA], MarkedA, stalled.derivatives, map[0 := Run(JA, "a", point)], 1, 1, [])
    ensures Next(Next(stalled, Tick(1)), Claim("b", 1, 1)) == Taken(MarkedA, stalled.derivatives, point, Claimed, [])
  {
  }

  lemma TakenRead(derivatives: set<string>, point: Point)
    ensures Next(Taken(MarkedA, derivatives, point, Claimed, []), Read(1)) == Taken(MarkedA, derivatives, point, Ready(1), [])
  {
  }

  lemma TakenMark(derivatives: set<string>, point: Point)
    ensures Next(Taken(MarkedA, derivatives, point, Ready(1), []), MarkProcessing(1)) ==
            Taken(MarkedB, derivatives, point, Working(2), [])
  {
  }

  lemma TakenSave(derivatives: set<string>, point: Point)
    ensures Next(Taken(MarkedB, derivatives, point, Working(2), []), Save(1)) ==
            Taken(MarkedB, derivatives + {"d"}, point, SavedOutput(2), [])
    ensures Next(Taken(MarkedB, derivatives + {"d"}, point, SavedOutput(2), []), AssertOwned(1)) ==
            Taken(MarkedB, derivatives + {"d"}, point, Owned(2), [])
  {
  }

  const DoneB: Document := MarkedB.(status := Completed, workerId := None)

  lemma TakenComplete(derivatives: set<string>, point: Point)
    ensures Next(Taken(MarkedB, derivatives, point, Owned(2), []), Complete(1)) ==
            Taken(DoneB, derivatives, point, Acknowledging, [("d", 1)])
  {
  }

  lemma ReachTakenCompleted(steps: seq<Step>, stalled: State, point: Point) returns (more: seq<Step>)
    requires Execute(Start, steps) == stalled
    requires stalled == With(0, [JA], MarkedA, stalled.derivatives, map[0 := Run(JA, "a", point)], 1, 1, [])
    ensures Execute(Start, more) == Taken(DoneB, stalled.derivatives + {"d"}, point, Acknowledging, [("d", 1)])
  {
    var kept := stalled.derivatives;
    TakeOver(stalled, point);
    TakenRead(kept, point);
    TakenMark(kept, point);
    TakenSave(kept, point);
    TakenComplete(kept + {"d"}, point);
    more := Extend(steps, stalled, Tick(1));
    more := Extend(more, Next(stalled, Tick(1)), Claim("b", 1, 1));
    more := Extend(more, Taken(MarkedA, kept, point, Claimed, []), Read(1));
    more := Extend(more, Taken(MarkedA, kept, point, Ready(1), []), MarkProcessing(1));
    more := Extend(more, Taken(MarkedB, kept, point, Working(2), []), Save(1));
    more := Extend(more, Taken(MarkedB, kept + {"d"}, point, SavedOutput(2), []), AssertOwned(1));
    more := Extend(more, Taken(MarkedB, kept + {"d"}, point, Owned(2), []), Complete(1));
  }

  lemma StaleDrop()
    ensures var s := Taken(DoneB, {"d"}, Working(1), Acknowledging, [("d", 1)]);
            var t := Next(Next(s, Throw(0, true)), Drop(0));
            t.derivatives == {} && IsStatus(t, "d", {Completed})
  {
  }

  /** A COMPLETED document without derivatives: the stale worker's catch block deleted them. */
  lemma StaleWorkerDeletesDerivatives()
    ensures exists steps :: !CompletedHasDerivatives(Execute(Start, steps))
  {
    var steps := ReachWorking();
    steps := ReachTakenCompleted(steps, WorkingA, Working(1));
    var s := Taken(DoneB, {"d"}, Working(1), Acknowledging, [("d", 1)]);
    assert {} + {"d"} == {"d"};
    steps := Extend(steps, s, Throw(0, true));
    steps := Extend(steps, Next(s, Throw(0, true)), Drop(0));
    StaleDrop();
    assert !CompletedHasDerivatives(Execute(Start, steps));
  }

  // ----- tokens restart with every job -----

  const K: Job := Job("k", "d", 1, 1, 0, 0, false, None, None)
  const KA: Job := ClaimedBy(K, "a", 1, 1)

  /** Job "j" is done; job "k" was enqueued for the same document. */
  function Again(jobs: seq<Job>, doc: Document, runs: map<nat, Run>, nextRun: nat, token: nat): State {
    State(1, Retries, jobs, map["d" := doc], {"d"}, runs, nextRun,
          map["j" := Issue("d", 2), "k" := Issue("d", token)], {}, {}, [("d", 1)])
  }

  const Stalled: Run := Run(JA, "a", Owned(1))
  const Requeued: Document := DoneB.(status := Queued)

  const FinishedB: State := Taken(DoneB, {"d"}, Owned(1), Acknowledging, [("d", 1)])
  const Emptied: State := FinishedB.(jobs := [], runs := map[0 := Stalled])

  lemma FinishB()
    ensures Next(FinishedB, Acknowledge(1)) == Emptied
  {
  }

  lemma EnqueueK()
    ensures Next(Next(Emptied, EnqueueAgain("d", "k")), Requeue("d")) == Again([K], Requeued, map[0 := Stalled], 2, 0)
  {
  }

  lemma ClaimAgain()
    ensures Next(Again([K], Requeued, map[0 := Stalled], 2, 0), Claim("a", 1, 1)) ==
            Again([KA], Requeued, map[0 := Stalled, 2 := Run(KA, "a", Claimed)], 3, 1)
  {
  }

  lemma ReadAgain()
    ensures Next(Again([KA], Requeued, map[0 := Stalled, 2 := Run(KA, "a", Claimed)], 3, 1), Read(2)) ==
            Again([KA], Requeued, map[0 := Stalled, 2 := Run(KA, "a", Ready(2))], 3, 1)
  {
  }

  lemma MarkAgain()
    ensures var t := Next(Again([KA], Requeued, map[0 := Stalled, 2 := Run(KA, "a", Ready(2))], 3, 1), MarkProcessing(2));
            0 in t.runs && WritesOutcome(t, Complete(0), 0) && MarkedBy(t, "d", 2)
  {
  }

  lemma ReachRequeued() returns (steps: seq<Step>)
    ensures Execute(Start, steps) == Again([K], Requeued, map[0 := Stalled], 2, 0)
  {
    steps := ReachOwned();
    steps := ReachTakenCompleted(steps, OwnedA, Owned(1));
    assert {"d"} + {"d"} == {"d"};
    FinishB();
    steps := Extend(steps, FinishedB, Acknowledge(1));
    EnqueueK();
    steps := Extend(steps, Emptied, EnqueueAgain("d", "k"));
    steps := Extend(steps, Next(Emptied, EnqueueAgain("d", "k")), Requeue("d"));
  }

  lemma ReachClaimedAgain() returns (steps: seq<Step>)
    ensures Execute(Start, steps) == Again([KA], Requeued, map[0 := Stalled, 2 := Run(KA, "a", Ready(2))], 3, 1)
  {
    steps := ReachRequeued();
    var a := Again([K], Requeued, map[0 := Stalled], 2, 0);
    ClaimAgain();
    ReadAgain();
    steps := Extend(steps, a, Claim("a", 1, 1));
    steps := Extend(steps, Again([KA], Requeued, map[0 := Stalled, 2 := Run(KA, "a", Claimed)], 3, 1), Read(2));
  }

  /** With two overlapping runs of worker "a", the stale one may complete the other's PROCESSING mark. */
  lemma TokensRestartWithEveryJob()
    ensures exists steps :: var s := Execute(Start, steps);
              0 in s.runs && WritesOutcome(s, Complete(0), 0) && MarkedBy(s, "d", 2)
  {
    var steps := ReachClaimedAgain();
    var b := Again([KA], Requeued, map[0 := Stalled, 2 := Run(KA, "a", Ready(2))], 3, 1);
    steps := Extend(steps, b, MarkProcessing(2));
    MarkAgain();
  }
}
