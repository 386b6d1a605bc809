/**
 * `LocalDocumentProcessingQueue`: a JSON file of jobs, claimed under a lease, with a fencing
 * token that every claim raises.  Times are milliseconds; an ISO time stamp orders as its time.
 */
module DocumentQueue {
  import opened Wrappers
  import FileLock

  datatype Job = Job(
    id: string,
    documentId: string,
    enqueuedAt: int,
    availableAt: int,
    attempts: nat,
    fencingToken: nat,
    claimed: bool,
    workerId: Option<string>,
    leaseExpiresAt: Option<int>)

  datatype QueueError = JobNotFound | NotClaimedByWorker | LeaseExpired | InvalidLeaseDuration

  // ----- the file contents each call leaves -----

  function IndexOfDocument(jobs: seq<Job>, documentId: string): (r: Option<nat>)
    ensures r.Some? ==> r.value < |jobs| && jobs[r.value].documentId == documentId
    ensures r.None? ==> forall j :: 0 <= j < |jobs| ==> jobs[j].documentId != documentId
  {
    if jobs == [] then None
    else if jobs[0].documentId == documentId then Some(0)
    else
      match IndexOfDocument(jobs[1..], documentId)
      case None => None
      case Some(i) => Some(i + 1)
  }

  function IndexOfJob(jobs: seq<Job>, id: string): (r: Option<nat>)
    ensures r.Some? ==> r.value < |jobs| && jobs[r.value].id == id
    ensures r.Some? ==> forall j :: 0 <= j < r.value ==> jobs[j].id != id
    ensures r.None? ==> forall j :: 0 <= j < |jobs| ==> jobs[j].id != id
  {
    if jobs == [] then None
    else if jobs[0].id == id then Some(0)
    else
      match IndexOfJob(jobs[1..], id)
      case None => None
      case Some(i) => Some(i + 1)
  }

  function Enqueued(jobs: seq<Job>, documentId: string, freshId: string, now: int): seq<Job> {
    if IndexOfDocument(jobs, documentId).Some? then jobs
    else jobs + [Job(freshId, documentId, now, now, 0, 0, false, None, None)]
  }

  predicate Claimable(job: Job, now: int) {
    job.availableAt <= now &&
    (!job.claimed || (job.leaseExpiresAt.Some? && job.leaseExpiresAt.value <= now))
  }

  /** Filter, stable sort by `enqueuedAt`, first element: the oldest claimable job of the first n. */
  function OldestClaimable(jobs: seq<Job>, now: int, n: nat): (r: Option<nat>)
    requires n <= |jobs|
    ensures r.None? ==> forall k :: 0 <= k < n ==> !Claimable(jobs[k], now)
    ensures r.Some? ==> r.value < n && Claimable(jobs[r.value], now)
    ensures r.Some? ==> forall k :: 0 <= k < n && Claimable(jobs[k], now) ==>
              jobs[r.value].enqueuedAt < jobs[k].enqueuedAt ||
              (jobs[r.value].enqueuedAt == jobs[k].enqueuedAt && r.value <= k)
  {
    if n == 0 then None
    else
      var best := OldestClaimable(jobs, now, n - 1);
      if !Claimable(jobs[n - 1], now) then best
      else if best.None? || jobs[n - 1].enqueuedAt < jobs[best.value].enqueuedAt then Some(n - 1)
      else best
  }

  function ClaimedBy(job: Job, workerId: string, now: int, leaseMs: int): Job {
    job.(claimed := true, workerId := Some(workerId), leaseExpiresAt := Some(now + leaseMs),
         attempts := job.attempts + 1, fencingToken := job.fencingToken + 1)
  }

  function AfterClaim(jobs: seq<Job>, workerId: string, now: int, leaseMs: int): seq<Job> {
    match OldestClaimable(jobs, now, |jobs|)
    case None => jobs
    case Some(i) => jobs[i := ClaimedBy(jobs[i], workerId, now, leaseMs)]
  }

  predicate OwnedBy(job: Job, workerId: string, token: nat) {
    job.claimed && job.workerId == Some(workerId) && job.fencingToken == token
  }

  predicate LeaseRunning(job: Job, now: int) {
    job.leaseExpiresAt.Some? && now < job.leaseExpiresAt.value
  }

  /** `assertLease`, and the check with which `renew` starts. */
  function CheckLease(jobs: seq<Job>, id: string, workerId: string, token: nat, now: int): Result<nat, QueueError> {
    match IndexOfJob(jobs, id)
    case None => Err(JobNotFound)
    case Some(i) =>
      if !OwnedBy(jobs[i], workerId, token) then Err(NotClaimedByWorker)
      else if !LeaseRunning(jobs[i], now) then Err(LeaseExpired)
      else Ok(i)
  }

  function AfterRenew(jobs: seq<Job>, id: string, workerId: string, token: nat, now: int, leaseMs: int): seq<Job> {
    match CheckLease(jobs, id, workerId, token, now)
    case Err(_) => jobs
    case Ok(i) => jobs[i := jobs[i].(leaseExpiresAt := Some(now + leaseMs))]
  }

  /** Acknowledging a job that is gone succeeds and changes nothing. */
  function CheckAcknowledge(jobs: seq<Job>, id: string, workerId: string, token: nat): Result<Option<nat>, QueueError> {
    match IndexOfJob(jobs, id)
    case None => Ok(None)
    case Some(i) => if OwnedBy(jobs[i], workerId, token) then Ok(Some(i)) else Err(NotClaimedByWorker)
  }

  function AfterAcknowledge(jobs: seq<Job>, id: string, workerId: string, token: nat): seq<Job> {
    match CheckAcknowledge(jobs, id, workerId, token)
    case Ok(Some(i)) => jobs[..i] + jobs[i + 1..]
    case _ => jobs
  }

  function CheckRelease(jobs: seq<Job>, id: string, workerId: string, token: nat): Result<nat, QueueError> {
    match IndexOfJob(jobs, id)
    case None => Err(JobNotFound)
    case Some(i) => if OwnedBy(jobs[i], workerId, token) then Ok(i) else Err(NotClaimedByWorker)
  }

  function AfterRelease(jobs: seq<Job>, id: string, workerId: string, token: nat, availableAt: int): seq<Job> {
    match CheckRelease(jobs, id, workerId, token)
    case Err(_) => jobs
    case Ok(i) =>
      jobs[i := jobs[i].(claimed := false, workerId := None, leaseExpiresAt := None, availableAt := availableAt)]
  }

  function WithoutDocument(jobs: seq<Job>, documentId: string): seq<Job> {
    if jobs == [] then []
    else (if jobs[0].documentId == documentId then [] else [jobs[0]]) + WithoutDocument(jobs[1..], documentId)
  }

  // ----- the queue object -----

  /** The queue of one tenant; `jobs` is the parsed contents of its file. */
  class LocalDocumentProcessingQueue {
    var jobs: seq<Job>

    constructor ()
      ensures jobs == []
    {
      jobs := [];
    }

    method Enqueue(documentId: string, freshId: string, now: int) returns (job: Job, enqueued: bool)
      modifies this
      ensures jobs == Enqueued(old(jobs), documentId, freshId, now)
      ensures job in jobs && job.documentId == documentId
      ensures enqueued <==> forall k :: 0 <= k < |old(jobs)| ==> old(jobs)[k].documentId != documentId
    {
      var existing := IndexOfDocument(jobs, documentId);
      if existing.Some? {
        return jobs[existing.value], false;
      }
      job := Job(freshId, documentId, now, now, 0, 0, false, None, None);
      jobs := jobs + [job];
      enqueued := true;
    }

    method Claim(workerId: string, now: int, leaseMs: int) returns (r: Result<Option<Job>, QueueError>)
      modifies this
      ensures leaseMs <= 0 ==> r == Err(InvalidLeaseDuration) && jobs == old(jobs)
      ensures leaseMs > 0 ==> r.Ok? && jobs == AfterClaim(old(jobs), workerId, now, leaseMs)
      ensures r == Ok(None) ==> forall k :: 0 <= k < |old(jobs)| ==> !Claimable(old(jobs)[k], now)
      ensures r.Ok? && r.value.Some? ==> r.value.value in jobs && OwnedBy(r.value.value, workerId, r.value.value.fencingToken)
    {
      if leaseMs <= 0 {
        return Err(InvalidLeaseDuration);
      }
      var i := OldestClaimable(jobs, now, |jobs|);
      if i.None? {
        return Ok(None);
      }
      var job := jobs[i.value];
      job := job.(claimed := true);
      job := job.(workerId := Some(workerId));
      job := job.(leaseExpiresAt := Some(now + leaseMs));
      job := job.(attempts := job.attempts + 1);
      job := job.(fencingToken := job.fencingToken + 1);
      jobs := jobs[i.value := job];
      r := Ok(Some(job));
    }

    method Renew(id: string, workerId: string, token: nat, now: int, leaseMs: int) returns (r: Result<Job, QueueError>)
      modifies this
      ensures leaseMs <= 0 ==> r == Err(InvalidLeaseDuration) && jobs == old(jobs)
      ensures leaseMs > 0 ==> jobs == AfterRenew(old(jobs), id, workerId, token, now, leaseMs)
      ensures leaseMs > 0 ==> (r.Ok? <==> CheckLease(old(jobs), id, workerId, token, now).Ok?)
      ensures r.Ok? ==> r.value in jobs && r.value.id == id && r.value.leaseExpiresAt == Some(now + leaseMs)
    {
      if leaseMs <= 0 {
        return Err(InvalidLeaseDuration);
      }
      var check := CheckLease(jobs, id, workerId, token, now);
      if check.Err? {
        return Err(check.error);
      }
      var job := jobs[check.value].(leaseExpiresAt := Some(now + leaseMs));
      jobs := jobs[check.value := job];
      assert jobs[check.value] == job;
      r := Ok(job);
    }

    method AssertLease(id: string, workerId: string, token: nat, now: int) returns (r: Result<(), QueueError>)
      ensures r.Ok? ==> exists k :: 0 <= k < |jobs| && jobs[k].id == id && OwnedBy(jobs[k], workerId, token) && LeaseRunning(jobs[k], now)
      ensures r == Err(JobNotFound) <==> forall k :: 0 <= k < |jobs| ==> jobs[k].id != id
      ensures r.Err? <==> CheckLease(jobs, id, workerId, token, now).Err?
    {
      var check := CheckLease(jobs, id, workerId, token, now);
      r := if check.Ok? then Ok(()) else Err(check.error);
    }

    method Acknowledge(id: string, workerId: string, token: nat) returns (r: Result<(), QueueError>)
      modifies this
      ensures jobs == AfterAcknowledge(old(jobs), id, workerId, token)
      ensures r.Err? ==> jobs == old(jobs) && exists k :: 0 <= k < |jobs| && jobs[k].id == id && !OwnedBy(jobs[k], workerId, token)
    {
      var check := CheckAcknowledge(jobs, id, workerId, token);
      match check {
        case Err(e) => r := Err(e);
        case Ok(None) => r := Ok(());
        case Ok(Some(i)) =>
          jobs := jobs[..i] + jobs[i + 1..];
          r := Ok(());
      }
    }

    method Release(id: string, workerId: string, token: nat, availableAt: int) returns (r: Result<(), QueueError>)
      modifies this
      ensures jobs == AfterRelease(old(jobs), id, workerId, token, availableAt)
      ensures r.Err? ==> jobs == old(jobs)
      ensures r.Ok? ==> exists k :: 0 <= k < |jobs| && jobs[k].id == id && !jobs[k].claimed && jobs[k].availableAt == availableAt
    {
      var check := CheckRelease(jobs, id, workerId, token);
      match check {
        case Err(e) => r := Err(e);
        case Ok(i) =>
          jobs := jobs[i := jobs[i].(claimed := false, workerId := None, leaseExpiresAt := None, availableAt := availableAt)];
          assert jobs[i].id == id;
          r := Ok(());
      }
    }

    method RemoveForDocument(documentId: string)
      modifies this
      ensures jobs == WithoutDocument(old(jobs), documentId)
      ensures forall job :: job in jobs <==> job in old(jobs) && job.documentId != documentId
    {
      RemovesExactly(jobs, documentId);
      jobs := WithoutDocument(jobs, documentId);
    }
  }

  lemma {:induction false} RemovesExactly(jobs: seq<Job>, documentId: string)
    ensures forall job :: job in WithoutDocument(jobs, documentId) <==> job in jobs && job.documentId != documentId
  {
    if jobs != [] {
      RemovesExactly(jobs[1..], documentId);
    }
  }

  // ----- distinct job ids -----

  ghost predicate DistinctIds(jobs: seq<Job>) {
    forall i, j :: 0 <= i < j < |jobs| ==> jobs[i].id != jobs[j].id
  }

  lemma {:induction false} RemovalKeepsIds(jobs: seq<Job>, d: string)
    requires DistinctIds(jobs)
    ensures DistinctIds(WithoutDocument(jobs, d))
  {
    if jobs != [] {
      var rest := WithoutDocument(jobs[1..], d);
      RemovalKeepsIds(jobs[1..], d);
      RemovesExactly(jobs[1..], d);
      forall i | 0 <= i < |rest| ensures rest[i].id != jobs[0].id {
        assert rest[i] in jobs[1..];
      }
      assert DistinctIds([jobs[0]] + rest);
    }
  }

  // ----- calls, and what they keep in the file -----

  datatype Call =
    | EnqueueCall(documentId: string, freshId: string)
    | ClaimCall(workerId: string, at: int, leaseMs: int)
    | RenewCall(id: string, workerId: string, token: nat, leaseMs: int)
    | AssertCall(id: string, workerId: string, token: nat)
    | AcknowledgeCall(id: string, workerId: string, token: nat)
    | ReleaseCall(id: string, workerId: string, token: nat, availableAt: int)
    | RemoveCall(documentId: string)

  /** The file after a call at time `now`; a claim may have read its clock earlier, at `at`. */
  function Apply(jobs: seq<Job>, call: Call, now: int): seq<Job> {
    match call
    case EnqueueCall(d, id) => Enqueued(jobs, d, id, now)
    case ClaimCall(w, at, ms) => if ms <= 0 then jobs else AfterClaim(jobs, w, at, ms)
    case RenewCall(id, w, t, ms) => if ms <= 0 then jobs else AfterRenew(jobs, id, w, t, now, ms)
    case AssertCall(_, _, _) => jobs
    case AcknowledgeCall(id, w, t) => AfterAcknowledge(jobs, id, w, t)
    case ReleaseCall(id, w, t, at) => AfterRelease(jobs, id, w, t, at)
    case RemoveCall(d) => WithoutDocument(jobs, d)
  }

  predicate JobConsistent(job: Job) {
    job.attempts == job.fencingToken && (job.claimed <==> job.workerId.Some?) && (job.claimed <==> job.leaseExpiresAt.Some?)
  }

  ghost predicate FileConsistent(jobs: seq<Job>) {
    && (forall i, j :: 0 <= i < j < |jobs| ==> jobs[i].documentId != jobs[j].documentId)
    && (forall i :: 0 <= i < |jobs| ==> JobConsistent(jobs[i]))
  }

  lemma {:induction false} RemovalKeeps(jobs: seq<Job>, documentId: string)
    requires FileConsistent(jobs)
    ensures FileConsistent(WithoutDocument(jobs, documentId))
  {
    if jobs != [] {
      RemovalKeeps(jobs[1..], documentId);
      RemovesExactly(jobs[1..], documentId);
      var rest := WithoutDocument(jobs[1..], documentId);
      forall i | 0 <= i < |rest| ensures rest[i].documentId != jobs[0].documentId {
        assert rest[i] in jobs[1..];
      }
    }
  }

  lemma UpdateKeeps(jobs: seq<Job>, i: nat, job: Job)
    requires FileConsistent(jobs) && i < |jobs|
    requires job.documentId == jobs[i].documentId && JobConsistent(job)
    ensures FileConsistent(jobs[i := job])
  {
  }

  lemma DropKeeps(jobs: seq<Job>, i: nat)
    requires FileConsistent(jobs) && i < |jobs|
    ensures FileConsistent(jobs[..i] + jobs[i + 1..])
  {
  }

  lemma AcknowledgeKeeps(jobs: seq<Job>, id: string, workerId: string, token: nat)
    requires FileConsistent(jobs)
    ensures FileConsistent(AfterAcknowledge(jobs, id, workerId, token))
  {
    var check := CheckAcknowledge(jobs, id, workerId, token);
    if check.Ok? && check.value.Some? {
      DropKeeps(jobs, check.value.value);
    }
  }

  lemma LeaseCallsKeep(jobs: seq<Job>, call: Call, now: int)
    requires FileConsistent(jobs)
    requires call.ClaimCall? || call.RenewCall? || call.ReleaseCall?
    ensures FileConsistent(Apply(jobs, call, now))
  {
    match call
    case ClaimCall(w, at, ms) =>
      var i := OldestClaimable(jobs, at, |jobs|);
      if i.Some? { UpdateKeeps(jobs, i.value, ClaimedBy(jobs[i.value], w, at, ms)); }
    case RenewCall(id, w, token, ms) =>
      var i := CheckLease(jobs, id, w, token, now);
      if i.Ok? { UpdateKeeps(jobs, i.value, jobs[i.value].(leaseExpiresAt := Some(now + ms))); }
    case ReleaseCall(id, w, token, at) =>
      var i := CheckRelease(jobs, id, w, token);
      if i.Ok? {
        UpdateKeeps(jobs, i.value,
          jobs[i.value].(claimed := false, workerId := None, leaseExpiresAt := None, availableAt := at));
      }
  }

  /** Every call keeps one job per document and attempts equal to the fencing token. */
  lemma ApplyKeeps(jobs: seq<Job>, call: Call, now: int)
    requires FileConsistent(jobs)
    ensures FileConsistent(Apply(jobs, call, now))
  {
    match call
    case RemoveCall(d) => RemovalKeeps(jobs, d);
    case AcknowledgeCall(id, w, token) => AcknowledgeKeeps(jobs, id, w, token);
    case EnqueueCall(_, _) =>
    case AssertCall(_, _, _) =>
    case _ => LeaseCallsKeep(jobs, call, now);
  }

  ghost predicate Performs(action: seq<Job> -> seq<Job>, call: Call, now: int) {
    forall jobs :: action(jobs) == Apply(jobs, call, now)
  }

  ghost predicate IsQueueCall(action: seq<Job> -> seq<Job>) {
    exists call, now :: Performs(action, call, now)
  }

  /** Hence under every interleaving of calls through the file lock, whatever each call sees. */
  lemma InterleavedCallsKeepOneJobPerDocument(steps: seq<FileLock.Step<seq<Job>>>)
    requires forall k :: 0 <= k < |steps| && steps[k].Arrive? ==> IsQueueCall(steps[k].action)
    ensures FileConsistent(FileLock.Run(FileLock.Initial([]), steps).file)
  {
    var end := FileLock.Run(FileLock.Initial([]), steps);
    FileLock.InterleavingEqualsSequentialRun([], steps);
    ActionsAreCalls(FileLock.Initial([]), steps);
    forall i: int, jobs: seq<Job> | 0 <= i < |end.calls| && FileConsistent(jobs)
      ensures FileConsistent(end.calls[i].action(jobs))
    {
      assert IsQueueCall(end.calls[i].action);
      var call, now :| Performs(end.calls[i].action, call, now);
      ApplyKeeps(jobs, call, now);
    }
    FileLock.ReplayKeeps([], end.calls, jobs => FileConsistent(jobs));
  }

  lemma {:induction false} ActionsAreCalls(s: FileLock.State<seq<Job>>, steps: seq<FileLock.Step<seq<Job>>>)
    requires forall i :: 0 <= i < |s.calls| ==> IsQueueCall(s.calls[i].action)
    requires forall k :: 0 <= k < |steps| && steps[k].Arrive? ==> IsQueueCall(steps[k].action)
    ensures var end := FileLock.Run(s, steps);
            forall i :: 0 <= i < |end.calls| ==> IsQueueCall(end.calls[i].action)
    decreases |steps|
  {
    if steps != [] {
      var next := FileLock.Next(s, steps[0]);
      assert forall i :: 0 <= i < |next.calls| ==>
          if i < |s.calls| then next.calls[i].action == s.calls[i].action
          else steps[0].Arrive? && next.calls[i].action == steps[0].action;
      assert forall k :: 0 <= k < |steps| - 1 ==> steps[1..][k] == steps[k + 1];
      ActionsAreCalls(next, steps[1..]);
      var end := FileLock.Run(s, steps);
      assert end == FileLock.Run(next, steps[1..]);
      forall i | 0 <= i < |end.calls| ensures IsQueueCall(end.calls[i].action) {
        assert IsQueueCall(FileLock.Run(next, steps[1..]).calls[i].action);
      }
    } else {
      assert FileLock.Run(s, steps) == s;
    }
  }
}
