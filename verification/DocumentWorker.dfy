/**
 * The document worker `processClaimedJob` as a protocol: each await is a step boundary, and any
 * number of runs of the worker interleave with each other, with the clock, with crashes and with
 * the upload, delete and reprocess services.  A run is one claim; runs may share a worker id.
 * A step that is not enabled leaves the state as it is.
 */
module DocumentWorker {
  import opened Wrappers
  import opened DocumentQueue
  import opened Powers

  datatype Status = Uploaded | Queued | Processing | Completed | Failed | Quarantined | Deleted

  /** `assertDocumentStatusTransition`: the table, and staying put. */
  predicate AllowedTransition(from: Status, to: Status) {
    from == to ||
    match from
    case Uploaded => to in {Queued, Failed, Quarantined, Deleted}
    case Queued => to in {Processing, Failed, Quarantined, Deleted}
    case Processing => to in {Processing, Queued, Completed, Failed, Quarantined, Deleted}
    case Completed => to in {Queued, Deleted}
    case Failed => to in {Queued, Quarantined, Deleted}
    case Quarantined => to in {Queued, Completed, Failed, Deleted}
    case Deleted => false
  }

  /** Which run made the latest PROCESSING mark, and under which claim.  Not stored by the program. */
  datatype Mark = Mark(run: nat, job: string, workerId: string, token: nat)

  datatype Document = Document(
    status: Status,
    attempts: nat,
    workerId: Option<string>,
    token: nat,
    mark: Option<Mark>)

  datatype Policy = Policy(maxAttempts: nat, initialDelayMs: nat, maxDelayMs: nat)

  datatype Decision = Retry(at: int) | Fail | Quarantine

  function DecideRetry(attempts: nat, retryable: bool, policy: Policy, now: int): Decision {
    if !retryable then Fail
    else if attempts >= policy.maxAttempts then Quarantine
    else
      var delay := policy.initialDelayMs * PowerOfTwo(if attempts == 0 then 0 else attempts - 1);
      Retry(now + if delay < policy.maxDelayMs then delay else policy.maxDelayMs)
  }

  /** Where a run is; the comments name the await it is about to reach. */
  datatype Point =
    | Claimed                       // metadata.findById
    | SawUploaded                   // UPLOADED -> QUEUED
    | Ready(attempts: nat)          // the PROCESSING mark
    | Working(attempts: nat)        // reading, extracting, processing.save
    | SavedOutput(attempts: nat)    // heartbeat.assertOwned
    | Owned(attempts: nat)          // the COMPLETED write
    | Conflict(attempts: nat)       // processing.delete after a refused COMPLETED write
    | Failing(attempts: nat, retryable: bool)   // processing.delete in the catch block
    | Dropped(attempts: nat, retryable: bool)   // the QUEUED, FAILED or QUARANTINED write
    | Releasing(at: int)            // queue.release
    | Acknowledging                 // queue.acknowledge

  datatype Run = Run(job: Job, workerId: string, point: Point)

  datatype Issue = Issue(documentId: string, token: nat)

  /**
   * `issued` remembers every job ever enqueued and the last token claimed on it.  `submitted` and
   * `withdrawn` hold the documents whose upload service has enqueued a job and has yet to mark the
   * document QUEUED, or was refused that and has yet to remove the job a second time.
   */
  datatype State = State(
    now: int,
    policy: Policy,
    jobs: seq<Job>,
    docs: map<string, Document>,
    derivatives: set<string>,
    runs: map<nat, Run>,
    nextRun: nat,
    issued: map<string, Issue>,
    submitted: set<string>,
    withdrawn: set<string>,
    outcomes: seq<(string, nat)>)

  datatype Step =
    | Tick(ms: nat)
    | Create(documentId: string)
    | EnqueueUploaded(documentId: string, freshId: string)
    | MarkQueued(documentId: string)
    | WithdrawAgain(documentId: string)
    | EnqueueAgain(documentId: string, freshId: string)
    | Requeue(documentId: string)
    | Delete(documentId: string)
    | RemoveJobs(documentId: string)
    | Claim(workerId: string, at: int, leaseMs: int)
    | Read(run: nat)
    | Promote(run: nat)
    | MarkProcessing(run: nat)
    | Renew(run: nat, leaseMs: int)
    | Save(run: nat)
    | AssertOwned(run: nat)
    | Throw(run: nat, retryable: bool)
    | Complete(run: nat)
    | Drop(run: nat)
    | SkipDrop(run: nat)
    | WriteOutcome(run: nat)
    | Release(run: nat)
    | Acknowledge(run: nat)
    | Crash(run: nat)

  function Initial(now: int, policy: Policy): State {
    State(now, policy, [], map[], {}, map[], 0, map[], {}, {}, [])
  }

  // ----- services and clock -----

  function EnqueueJob(s: State, d: string, id: string): State {
    if id in s.issued || IndexOfDocument(s.jobs, d).Some? then s
    else s.(jobs := Enqueued(s.jobs, d, id, s.now), issued := s.issued[id := Issue(d, 0)])
  }

  predicate IsStatus(s: State, d: string, statuses: set<Status>) {
    d in s.docs && s.docs[d].status in statuses
  }

  function ServiceStep(s: State, step: Step): State {
    match step
    case Tick(ms) => s.(now := s.now + ms)
    case Create(d) =>
      if d in s.docs then s else s.(docs := s.docs[d := Document(Uploaded, 0, None, 0, None)])
    case EnqueueUploaded(d, id) =>
      if IsStatus(s, d, {Uploaded}) && id !in s.issued && IndexOfDocument(s.jobs, d).None?
      then EnqueueJob(s, d, id).(submitted := s.submitted + {d})
      else s
    case MarkQueued(d) =>
      if d !in s.submitted then s
      else if IsStatus(s, d, {Uploaded}) then
        s.(docs := s.docs[d := s.docs[d].(status := Queued, workerId := None)], submitted := s.submitted - {d})
      else s.(jobs := WithoutDocument(s.jobs, d), submitted := s.submitted - {d}, withdrawn := s.withdrawn + {d})
    // The document has left UPLOADED for good by then, so the change to FAILED that follows is refused.
    case WithdrawAgain(d) =>
      if d in s.withdrawn && d in s.docs && s.docs[d].status != Uploaded
      then s.(jobs := WithoutDocument(s.jobs, d), withdrawn := s.withdrawn - {d})
      else s
    case EnqueueAgain(d, id) =>
      if IsStatus(s, d, {Queued, Completed, Failed, Quarantined}) then EnqueueJob(s, d, id) else s
    case Requeue(d) =>
      if IsStatus(s, d, {Completed, Failed, Quarantined})
      then s.(docs := s.docs[d := s.docs[d].(status := Queued, workerId := None)])
      else s
    case Delete(d) =>
      if d in s.docs && s.docs[d].status != Deleted
      then s.(docs := s.docs[d := s.docs[d].(status := Deleted, workerId := None)])
      else s
    case RemoveJobs(d) =>
      if IsStatus(s, d, {Deleted}) then s.(jobs := WithoutDocument(s.jobs, d)) else s
    case Claim(w, at, ms) =>
      if ms <= 0 || s.now < at then s
      else
        (match OldestClaimable(s.jobs, at, |s.jobs|)
         case None => s
         case Some(i) =>
           var job := ClaimedBy(s.jobs[i], w, at, ms);
           s.(jobs := s.jobs[i := job],
              runs := s.runs[s.nextRun := Run(job, w, Claimed)],
              nextRun := s.nextRun + 1,
              issued := s.issued[job.id := Issue(job.documentId, job.fencingToken)]))
    case _ => s
  }

  // ----- one step of one run -----

  datatype Output = KeepOutput | SaveOutput | DropOutput

  /**
   * What a step of a run does: where the run stands afterwards (None: it has ended), what it writes
   * to its document, what becomes of the document's derivatives, the call it makes on the queue, and
   * whether it is an outcome, which is logged with the mark it closes.
   */
  datatype Effect = Effect(point: Option<Point>, doc: Option<Document>, output: Output, call: Option<Call>, outcome: bool)

  function Token(run: Run): nat {
    run.job.fencingToken
  }

  function DocumentOf(s: State, d: string): Option<Document> {
    if d in s.docs then Some(s.docs[d]) else None
  }

  predicate HasStatus(doc: Option<Document>, statuses: set<Status>) {
    doc.Some? && doc.value.status in statuses
  }

  function MoveTo(point: Point): Effect {
    Effect(Some(point), None, KeepOutput, None, false)
  }

  const End: Effect := Effect(None, None, KeepOutput, None, false)

  /** The lease guard of `transitionStatus` together with its expected status PROCESSING. */
  predicate GuardLets(run: Run, doc: Option<Document>) {
    HasStatus(doc, {Processing}) && doc.value.workerId == Some(run.workerId) && doc.value.token == Token(run)
  }

  predicate GuardPasses(s: State, run: Run) {
    GuardLets(run, DocumentOf(s, run.job.documentId))
  }

  /** A guarded outcome clears the worker id. */
  function OutcomeTo(point: Point, doc: Document, status: Status): Effect {
    Effect(Some(point), Some(doc.(status := status, workerId := None)), KeepOutput, None, true)
  }

  function ReadEffect(run: Run, doc: Option<Document>): Effect {
    if !run.point.Claimed? then MoveTo(run.point)
    else if doc.None? || HasStatus(doc, {Deleted, Completed, Failed, Quarantined}) then MoveTo(Acknowledging)
    else if HasStatus(doc, {Uploaded}) then MoveTo(SawUploaded)
    else MoveTo(Ready(doc.value.attempts))
  }

  function PromoteEffect(run: Run, doc: Option<Document>): Effect {
    if !run.point.SawUploaded? then MoveTo(run.point)
    else if HasStatus(doc, {Uploaded}) then MoveTo(Ready(doc.value.attempts)).(doc := Some(doc.value.(status := Queued)))
    else MoveTo(Acknowledging)
  }

  function MarkEffect(r: nat, run: Run, doc: Option<Document>): Effect {
    if !run.point.Ready? then MoveTo(run.point)
    else if HasStatus(doc, {Queued, Processing}) then
      var n := run.point.attempts + 1;
      var mark := Mark(r, run.job.id, run.workerId, Token(run));
      MoveTo(Working(n)).(doc := Some(Document(Processing, n, Some(run.workerId), Token(run), Some(mark))))
    else MoveTo(Acknowledging)
  }

  function SaveEffect(run: Run): Effect {
    if !run.point.Working? then MoveTo(run.point)
    else MoveTo(SavedOutput(run.point.attempts)).(output := SaveOutput)
  }

  function AssertEffect(run: Run, owned: bool): Effect {
    if !run.point.SavedOutput? then MoveTo(run.point)
    else if owned then MoveTo(Owned(run.point.attempts))
    else MoveTo(Failing(run.point.attempts, true))
  }

  function ThrowEffect(run: Run, retryable: bool): Effect {
    if run.point.Working? || run.point.SavedOutput? || run.point.Owned? || run.point.Conflict?
    then MoveTo(Failing(run.point.attempts, retryable))
    else MoveTo(run.point)
  }

  function CompleteEffect(run: Run, doc: Option<Document>): Effect {
    if !run.point.Owned? then MoveTo(run.point)
    else if GuardLets(run, doc) then OutcomeTo(Acknowledging, doc.value, Completed)
    else MoveTo(Conflict(run.point.attempts))
  }

  function DropEffect(run: Run): Effect {
    if run.point.Conflict? then MoveTo(Failing(run.point.attempts, true)).(output := DropOutput)
    else if run.point.Failing? then MoveTo(Dropped(run.point.attempts, run.point.retryable)).(output := DropOutput)
    else MoveTo(run.point)
  }

  function SkipDropEffect(run: Run): Effect {
    if run.point.Failing? then MoveTo(Dropped(run.point.attempts, run.point.retryable)) else MoveTo(run.point)
  }

  function OutcomeEffect(run: Run, doc: Option<Document>, policy: Policy, now: int): Effect {
    if !run.point.Dropped? then MoveTo(run.point)
    else if !GuardLets(run, doc) then End
    else
      match DecideRetry(run.point.attempts, run.point.retryable, policy, now)
      case Retry(at) => OutcomeTo(Releasing(at), doc.value, Queued)
      case Fail => OutcomeTo(Acknowledging, doc.value, Failed)
      case Quarantine => OutcomeTo(Acknowledging, doc.value, Quarantined)
  }

  function ReleaseEffect(run: Run): Effect {
    if !run.point.Releasing? then MoveTo(run.point)
    else End.(call := Some(ReleaseCall(run.job.id, run.workerId, Token(run), run.point.at)))
  }

  function AcknowledgeEffect(run: Run): Effect {
    if !run.point.Acknowledging? then MoveTo(run.point)
    else End.(call := Some(AcknowledgeCall(run.job.id, run.workerId, Token(run))))
  }

  function EffectOf(s: State, step: Step, r: nat): Effect
    requires r in s.runs
  {
    var run := s.runs[r];
    var doc := DocumentOf(s, run.job.documentId);
    match step
    case Read(_) => ReadEffect(run, doc)
    case Promote(_) => PromoteEffect(run, doc)
    case MarkProcessing(_) => MarkEffect(r, run, doc)
    case Renew(_, ms) => MoveTo(run.point).(call := Some(RenewCall(run.job.id, run.workerId, Token(run), ms)))
    case Save(_) => SaveEffect(run)
    case AssertOwned(_) => AssertEffect(run, CheckLease(s.jobs, run.job.id, run.workerId, Token(run), s.now).Ok?)
    case Throw(_, retryable) => ThrowEffect(run, retryable)
    case Complete(_) => CompleteEffect(run, doc)
    case Drop(_) => DropEffect(run)
    case SkipDrop(_) => SkipDropEffect(run)
    case WriteOutcome(_) => OutcomeEffect(run, doc, s.policy, s.now)
    case Release(_) => ReleaseEffect(run)
    case Acknowledge(_) => AcknowledgeEffect(run)
    case Crash(_) => End
    case _ => MoveTo(run.point)
  }

  function Applied(s: State, r: nat, e: Effect): State
    requires r in s.runs
  {
    var run := s.runs[r];
    var d := run.job.documentId;
    s.(jobs := if e.call.Some? then Apply(s.jobs, e.call.value, s.now) else s.jobs,
       docs := if e.doc.Some? then s.docs[d := e.doc.value] else s.docs,
       derivatives := match e.output case KeepOutput => s.derivatives case SaveOutput => s.derivatives + {d} case DropOutput => s.derivatives - {d},
       runs := if e.point.Some? then s.runs[r := run.(point := e.point.value)] else s.runs - {r},
       outcomes := if e.outcome then s.outcomes + [(d, MarkedRun(s, d))] else s.outcomes)
  }

  /** The run whose mark the document carries. */
  function MarkedRun(s: State, d: string): nat {
    if d in s.docs && s.docs[d].mark.Some? then s.docs[d].mark.value.run else 0
  }

  function RunStep(s: State, step: Step, r: nat): State
    requires r in s.runs
  {
    Applied(s, r, EffectOf(s, step, r))
  }

  predicate IsRunStep(step: Step) {
    !(step.Tick? || step.Create? || step.EnqueueUploaded? || step.MarkQueued? || step.WithdrawAgain? || step.EnqueueAgain? ||
      step.Requeue? || step.Delete? || step.RemoveJobs? || step.Claim?)
  }

  function Next(s: State, step: Step): State {
    if !IsRunStep(step) then ServiceStep(s, step)
    else if step.run in s.runs then RunStep(s, step, step.run)
    else s
  }

  function Execute(s: State, steps: seq<Step>): State
    decreases |steps|
  {
    if steps == [] then s else Execute(Next(s, steps[0]), steps[1..])
  }

  /** Every status change of every document, by anyone, follows the transition table. */
  lemma StatusChangesFollowTheTable(s: State, step: Step)
    ensures forall d :: d in s.docs ==>
              (d in Next(s, step).docs && AllowedTransition(s.docs[d].status, Next(s, step).docs[d].status))
  {
    if !IsRunStep(step) {
      ServiceFollowsTheTable(s, step);
    } else if step.run in s.runs {
      EffectFollowsTheTable(s, step, step.run);
    }
  }

  lemma ServiceFollowsTheTable(s: State, step: Step)
    ensures forall d :: d in s.docs ==>
              (d in ServiceStep(s, step).docs && AllowedTransition(s.docs[d].status, ServiceStep(s, step).docs[d].status))
  {
  }

  lemma EffectFollowsTheTable(s: State, step: Step, r: nat)
    requires r in s.runs
    ensures var e := EffectOf(s, step, r);
            var d := s.runs[r].job.documentId;
            e.doc.Some? ==> d in s.docs && AllowedTransition(s.docs[d].status, e.doc.value.status)
  {
  }
}
