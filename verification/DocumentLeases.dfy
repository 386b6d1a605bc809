/**
 * Runs of the document queue under a shared clock.  The state remembers, for each job, the lease
 * period of every claim and every fenced call that succeeded.  Any caller may issue any call with
 * any worker id and token, so stalled and crashed workers are included.
 */
module DocumentLeases {
  import opened Wrappers
  import opened DocumentQueue

  /** A claim owns its job from `from` until `until`, unless the lease is renewed or given back. */
  datatype Period = Period(token: nat, from: int, until: int)

  /** A fenced call on a job that succeeded. */
  datatype Success = Success(job: string, token: nat)

  datatype State = State(
    now: int,
    jobs: seq<Job>,
    usedIds: set<string>,
    periods: map<string, seq<Period>>,
    log: seq<Success>)

  datatype Step = Tick(ms: nat) | Issue(call: Call)

  function Initial(now: int): State {
    State(now, [], {}, map[], [])
  }

  function PeriodsOf(s: State, id: string): seq<Period> {
    if id in s.periods then s.periods[id] else []
  }

  function WithLastUntil(periods: seq<Period>, until: int): seq<Period> {
    if periods == [] then []
    else periods[|periods| - 1 := periods[|periods| - 1].(until := until)]
  }

  function EndedBy(periods: seq<Period>, now: int): seq<Period> {
    if periods != [] && now < periods[|periods| - 1].until then WithLastUntil(periods, now) else periods
  }

  function Claimed(s: State, workerId: string, at: int, leaseMs: int): State {
    match OldestClaimable(s.jobs, at, |s.jobs|)
    case None => s
    case Some(i) =>
      var id, token := s.jobs[i].id, s.jobs[i].fencingToken + 1;
      s.(jobs := s.jobs[i := ClaimedBy(s.jobs[i], workerId, at, leaseMs)],
         periods := s.periods[id := PeriodsOf(s, id) + [Period(token, s.now, at + leaseMs)]],
         log := s.log + [Success(id, token)])
  }

  /** Job ids are random, hence fresh; a claim may have read its clock before it got the lock. */
  function Next(s: State, step: Step): State {
    match step
    case Tick(ms) => s.(now := s.now + ms)
    case Issue(EnqueueCall(d, id)) =>
      if id in s.usedIds then s
      else s.(jobs := Enqueued(s.jobs, d, id, s.now), usedIds := s.usedIds + {id})
    case Issue(ClaimCall(w, at, ms)) =>
      if ms <= 0 || s.now < at then s else Claimed(s, w, at, ms)
    case Issue(RenewCall(id, w, token, ms)) =>
      if ms <= 0 || CheckLease(s.jobs, id, w, token, s.now).Err? then s
      else s.(jobs := AfterRenew(s.jobs, id, w, token, s.now, ms),
              periods := s.periods[id := WithLastUntil(PeriodsOf(s, id), s.now + ms)],
              log := s.log + [Success(id, token)])
    case Issue(AssertCall(id, w, token)) =>
      if CheckLease(s.jobs, id, w, token, s.now).Err? then s else s.(log := s.log + [Success(id, token)])
    case Issue(AcknowledgeCall(id, w, token)) =>
      var check := CheckAcknowledge(s.jobs, id, w, token);
      if check.Err? || check.value.None? then s
      else s.(jobs := AfterAcknowledge(s.jobs, id, w, token),
              periods := s.periods[id := EndedBy(PeriodsOf(s, id), s.now)],
              log := s.log + [Success(id, token)])
    case Issue(ReleaseCall(id, w, token, at)) =>
      if CheckRelease(s.jobs, id, w, token).Err? then s
      else s.(jobs := AfterRelease(s.jobs, id, w, token, at),
              periods := s.periods[id := EndedBy(PeriodsOf(s, id), s.now)],
              log := s.log + [Success(id, token)])
    case Issue(RemoveCall(d)) => s.(jobs := WithoutDocument(s.jobs, d))
  }

  function Run(s: State, steps: seq<Step>): State
    decreases |steps|
  {
    if steps == [] then s else Run(Next(s, steps[0]), steps[1..])
  }

  // ----- the invariant -----

  ghost predicate Disjoint(periods: seq<Period>, now: int) {
    && (forall a, b :: 0 <= a < b < |periods| ==> periods[a].until <= periods[b].from)
    && (forall a :: 0 <= a < |periods| ==> periods[a].from <= now && periods[a].token == a + 1)
  }

  /** What the history of a job that is still in the file says about its record. */
  ghost predicate Current(job: Job, periods: seq<Period>, now: int) {
    && JobConsistent(job)
    && |periods| == job.fencingToken
    && (job.claimed ==> periods != [] && periods[|periods| - 1].until == job.leaseExpiresAt.value)
    && (!job.claimed ==> periods == [] || periods[|periods| - 1].until <= now)
  }

  ghost predicate TokensBounded(log: seq<Success>, job: Job) {
    forall k :: 0 <= k < |log| && log[k].job == job.id ==> log[k].token <= job.fencingToken
  }

  ghost predicate IdsFresh(s: State) {
    && DistinctIds(s.jobs)
    && (forall i :: 0 <= i < |s.jobs| ==> s.jobs[i].id in s.usedIds)
    && (forall id :: id in s.periods ==> id in s.usedIds)
    && (forall k :: 0 <= k < |s.log| ==> s.log[k].job in s.usedIds)
  }

  ghost predicate Inv(s: State) {
    && IdsFresh(s)
    && (forall id :: id in s.periods ==> Disjoint(s.periods[id], s.now))
    && (forall i :: 0 <= i < |s.jobs| ==> Current(s.jobs[i], PeriodsOf(s, s.jobs[i].id), s.now))
    && (forall i :: 0 <= i < |s.jobs| ==> TokensBounded(s.log, s.jobs[i]))
    && (forall a, b :: 0 <= a < b < |s.log| && s.log[a].job == s.log[b].job ==> s.log[a].token <= s.log[b].token)
  }

  /** The successful fenced call that leaves `job` in place i, with these lease periods. */
  function Replaced(s: State, i: nat, job: Job, periods: seq<Period>): State
    requires i < |s.jobs|
  {
    State(s.now, s.jobs[i := job], s.usedIds, s.periods[job.id := periods],
          s.log + [Success(job.id, job.fencingToken)])
  }

  lemma ReplacedKeeps(s: State, i: nat, job: Job, periods: seq<Period>)
    requires Inv(s) && i < |s.jobs| && job.id == s.jobs[i].id && s.jobs[i].fencingToken <= job.fencingToken
    requires Disjoint(periods, s.now) && Current(job, periods, s.now)
    ensures Inv(Replaced(s, i, job, periods))
  {
    var t := Replaced(s, i, job, periods);
    assert TokensBounded(s.log, s.jobs[i]);
    assert IdsFresh(t);
    forall k | 0 <= k < |t.jobs| ensures Current(t.jobs[k], PeriodsOf(t, t.jobs[k].id), t.now) && TokensBounded(t.log, t.jobs[k]) {
      assert k != i ==> t.jobs[k].id != job.id;
      assert TokensBounded(s.log, s.jobs[k]);
    }
  }

  lemma ClaimPeriods(job: Job, before: seq<Period>, now: int, workerId: string, at: int, leaseMs: int)
    requires Disjoint(before, now) && Current(job, before, now) && Claimable(job, at) && at <= now && leaseMs > 0
    ensures var after := before + [Period(job.fencingToken + 1, now, at + leaseMs)];
            Disjoint(after, now) && Current(ClaimedBy(job, workerId, at, leaseMs), after, now)
  {
    AppendDisjoint(before, Period(job.fencingToken + 1, now, at + leaseMs), now);
  }

  lemma PeriodsDisjoint(s: State, id: string)
    requires Inv(s)
    ensures Disjoint(PeriodsOf(s, id), s.now)
  {
  }

  lemma ClaimKeeps(s: State, workerId: string, at: int, leaseMs: int)
    requires Inv(s) && at <= s.now && leaseMs > 0
    ensures Inv(Claimed(s, workerId, at, leaseMs))
  {
    var i := OldestClaimable(s.jobs, at, |s.jobs|);
    if i.Some? {
      var job := s.jobs[i.value];
      var before := PeriodsOf(s, job.id);
      PeriodsDisjoint(s, job.id);
      assert Current(job, before, s.now);
      ClaimPeriods(job, before, s.now, workerId, at, leaseMs);
      ReplacedKeeps(s, i.value, ClaimedBy(job, workerId, at, leaseMs), before + [Period(job.fencingToken + 1, s.now, at + leaseMs)]);
    }
  }

  lemma AppendDisjoint(before: seq<Period>, period: Period, now: int)
    requires Disjoint(before, now) && period.from == now && period.token == |before| + 1
    requires before == [] || before[|before| - 1].until <= now
    ensures Disjoint(before + [period], now)
  {
    if before != [] {
      assert forall a :: 0 <= a < |before| - 1 ==> before[a].until <= before[|before| - 1].from;
    }
  }

  lemma AcknowledgeKeeps(s: State, id: string, w: string, token: nat)
    requires Inv(s)
    ensures Inv(Next(s, Issue(AcknowledgeCall(id, w, token))))
  {
    var check := CheckAcknowledge(s.jobs, id, w, token);
    if check.Ok? && check.value.Some? {
      var i := check.value.value;
      var before := PeriodsOf(s, id);
      assert Current(s.jobs[i], before, s.now);
      ReplacedKeeps(s, i, s.jobs[i], before);
      DroppedKeeps(Replaced(s, i, s.jobs[i], before), i, EndedBy(before, s.now));
      assert Replaced(s, i, s.jobs[i], before).jobs == s.jobs;
      var t := Next(s, Issue(AcknowledgeCall(id, w, token)));
      assert t.periods == s.periods[id := before][id := EndedBy(before, s.now)];
    }
  }

  lemma DroppedKeeps(s: State, i: nat, periods: seq<Period>)
    requires Inv(s) && i < |s.jobs| && Disjoint(periods, s.now)
    ensures Inv(s.(jobs := s.jobs[..i] + s.jobs[i + 1..], periods := s.periods[s.jobs[i].id := periods]))
  {
    var t := s.(jobs := s.jobs[..i] + s.jobs[i + 1..], periods := s.periods[s.jobs[i].id := periods]);
    assert forall k :: 0 <= k < |t.jobs| ==> t.jobs[k] == s.jobs[if k < i then k else k + 1];
    forall k | 0 <= k < |t.jobs| ensures Current(t.jobs[k], PeriodsOf(t, t.jobs[k].id), t.now) && TokensBounded(t.log, t.jobs[k]) {
      var j := if k < i then k else k + 1;
      assert t.jobs[k] == s.jobs[j] && s.jobs[j].id != s.jobs[i].id;
    }
  }

  lemma RenewPeriods(job: Job, before: seq<Period>, now: int, ms: int)
    requires Disjoint(before, now) && Current(job, before, now) && job.claimed && ms > 0
    ensures var after := WithLastUntil(before, now + ms);
            Disjoint(after, now) && Current(job.(leaseExpiresAt := Some(now + ms)), after, now)
  {
  }

  lemma RenewReplaces(s: State, i: nat, w: string, token: nat, ms: int)
    requires i < |s.jobs| && CheckLease(s.jobs, s.jobs[i].id, w, token, s.now) == Ok(i) && ms > 0
    ensures var job := s.jobs[i];
            Next(s, Issue(RenewCall(job.id, w, token, ms))) ==
            Replaced(s, i, job.(leaseExpiresAt := Some(s.now + ms)), WithLastUntil(PeriodsOf(s, job.id), s.now + ms))
  {
  }

  lemma RenewKeeps(s: State, id: string, w: string, token: nat, ms: int)
    requires Inv(s)
    ensures Inv(Next(s, Issue(RenewCall(id, w, token, ms))))
  {
    var i := CheckLease(s.jobs, id, w, token, s.now);
    if ms > 0 && i.Ok? {
      RenewReplaces(s, i.value, w, token, ms);
      RenewedKeeps(s, i.value, ms);
    }
  }

  lemma RenewedKeeps(s: State, i: nat, ms: int)
    requires Inv(s) && i < |s.jobs| && s.jobs[i].claimed && ms > 0
    ensures var job := s.jobs[i];
            Inv(Replaced(s, i, job.(leaseExpiresAt := Some(s.now + ms)), WithLastUntil(PeriodsOf(s, job.id), s.now + ms)))
  {
    var job := s.jobs[i];
    PeriodsDisjoint(s, job.id);
    assert Current(job, PeriodsOf(s, job.id), s.now);
    RenewPeriods(job, PeriodsOf(s, job.id), s.now, ms);
    ReplacedKeeps(s, i, job.(leaseExpiresAt := Some(s.now + ms)), WithLastUntil(PeriodsOf(s, job.id), s.now + ms));
  }

  lemma ReleaseKeeps(s: State, id: string, w: string, token: nat, at: int)
    requires Inv(s)
    ensures Inv(Next(s, Issue(ReleaseCall(id, w, token, at))))
  {
    var i := CheckRelease(s.jobs, id, w, token);
    if i.Ok? {
      var before := PeriodsOf(s, id);
      assert Current(s.jobs[i.value], before, s.now);
      assert Disjoint(EndedBy(before, s.now), s.now);
      ReplacedKeeps(s, i.value,
        s.jobs[i.value].(claimed := false, workerId := None, leaseExpiresAt := None, availableAt := at),
        EndedBy(before, s.now));
    }
  }

  lemma TickKeeps(s: State, ms: nat)
    requires Inv(s)
    ensures Inv(s.(now := s.now + ms))
  {
  }

  /** The file with one more, unclaimed job under a new id. */
  lemma EnqueuedKeeps(s: State, job: Job)
    requires Inv(s) && job.id !in s.usedIds && !job.claimed && JobConsistent(job) && job.fencingToken == 0
    ensures Inv(s.(jobs := s.jobs + [job], usedIds := s.usedIds + {job.id}))
  {
    var t := s.(jobs := s.jobs + [job], usedIds := s.usedIds + {job.id});
    assert PeriodsOf(t, job.id) == [];
    assert forall k :: 0 <= k < |s.log| ==> s.log[k].job in s.usedIds;
    forall k | 0 <= k < |t.jobs|
      ensures Current(t.jobs[k], PeriodsOf(t, t.jobs[k].id), t.now) && TokensBounded(t.log, t.jobs[k])
    {
      if k < |s.jobs| { assert t.jobs[k] == s.jobs[k]; }
    }
  }

  lemma EnqueueKeeps(s: State, d: string, id: string)
    requires Inv(s)
    ensures Inv(Next(s, Issue(EnqueueCall(d, id))))
  {
    if id !in s.usedIds {
      if IndexOfDocument(s.jobs, d).Some? {
        UsedIdKeeps(s, id);
      } else {
        EnqueuedKeeps(s, Job(id, d, s.now, s.now, 0, 0, false, None, None));
      }
    }
  }

  lemma UsedIdKeeps(s: State, id: string)
    requires Inv(s)
    ensures Inv(s.(usedIds := s.usedIds + {id}))
  {
  }

  lemma AssertKeeps(s: State, id: string, w: string, token: nat)
    requires Inv(s)
    ensures Inv(Next(s, Issue(AssertCall(id, w, token))))
  {
    var i := CheckLease(s.jobs, id, w, token, s.now);
    if i.Ok? {
      var before := PeriodsOf(s, id);
      assert Current(s.jobs[i.value], before, s.now);
      ReplacedKeeps(s, i.value, s.jobs[i.value], before);
      var t := Replaced(s, i.value, s.jobs[i.value], before);
      assert t.jobs == s.jobs;
      assert t.periods == s.periods;
    }
  }

  lemma RemoveKeeps(s: State, d: string)
    requires Inv(s)
    ensures Inv(s.(jobs := WithoutDocument(s.jobs, d)))
  {
    RemovalKeepsIds(s.jobs, d);
    RemovesExactly(s.jobs, d);
    var rest := WithoutDocument(s.jobs, d);
    forall i | 0 <= i < |rest|
      ensures rest[i].id in s.usedIds && Current(rest[i], PeriodsOf(s, rest[i].id), s.now) && TokensBounded(s.log, rest[i])
    {
      assert rest[i] in s.jobs;
    }
  }

  lemma NextKeeps(s: State, step: Step)
    requires Inv(s)
    ensures Inv(Next(s, step))
  {
    match step
    case Tick(ms) => TickKeeps(s, ms);
    case Issue(EnqueueCall(d, id)) => EnqueueKeeps(s, d, id);
    case Issue(ClaimCall(w, at, ms)) => if ms > 0 && at <= s.now { ClaimKeeps(s, w, at, ms); }
    case Issue(RenewCall(id, w, token, ms)) => RenewKeeps(s, id, w, token, ms);
    case Issue(AssertCall(id, w, token)) => AssertKeeps(s, id, w, token);
    case Issue(AcknowledgeCall(id, w, token)) => AcknowledgeKeeps(s, id, w, token);
    case Issue(ReleaseCall(id, w, token, at)) => ReleaseKeeps(s, id, w, token, at);
    case Issue(RemoveCall(d)) => RemoveKeeps(s, d);
  }

  lemma {:induction false} RunKeeps(s: State, steps: seq<Step>)
    requires Inv(s)
    ensures Inv(Run(s, steps))
    decreases |steps|
  {
    if steps != [] {
      NextKeeps(s, steps[0]);
      RunKeeps(Next(s, steps[0]), steps[1..]);
    }
  }

  /** Fenced calls on one job succeed in non-decreasing token order, in every run. */
  lemma FencedCallsSucceedInTokenOrder(now: int, steps: seq<Step>, a: nat, b: nat)
    requires a < b < |Run(Initial(now), steps).log|
    requires Run(Initial(now), steps).log[a].job == Run(Initial(now), steps).log[b].job
    ensures Run(Initial(now), steps).log[a].token <= Run(Initial(now), steps).log[b].token
  {
    RunKeeps(Initial(now), steps);
  }

  /** The lease periods of two claims of one job never overlap, and each claim has its own token. */
  lemma LeasePeriodsNeverOverlap(now: int, steps: seq<Step>, id: string, a: nat, b: nat)
    requires a < b < |PeriodsOf(Run(Initial(now), steps), id)|
    ensures var periods := PeriodsOf(Run(Initial(now), steps), id);
            periods[a].until <= periods[b].from && periods[a].token < periods[b].token
  {
    RunKeeps(Initial(now), steps);
  }

  /** Only the latest claim of a job passes the fence. */
  lemma OnlyLatestClaimPasses(now: int, steps: seq<Step>, id: string, workerId: string, token: nat)
    requires CheckRelease(Run(Initial(now), steps).jobs, id, workerId, token).Ok?
    ensures var s := Run(Initial(now), steps);
            PeriodsOf(s, id) != [] && PeriodsOf(s, id)[|PeriodsOf(s, id)| - 1].token == token
  {
    RunKeeps(Initial(now), steps);
  }

  // ----- a job that is in the file can be claimed again -----

  /** n claims at one time, by any worker. */
  function ClaimTimes(jobs: seq<Job>, workerId: string, at: int, leaseMs: int, n: nat): seq<Job>
    decreases n
  {
    if n == 0 then jobs else ClaimTimes(AfterClaim(jobs, workerId, at, leaseMs), workerId, at, leaseMs, n - 1)
  }

  function CountClaimable(jobs: seq<Job>, at: int): nat {
    if jobs == [] then 0 else (if Claimable(jobs[0], at) then 1 else 0) + CountClaimable(jobs[1..], at)
  }

  lemma {:induction false} CountDrops(jobs: seq<Job>, i: nat, job: Job, at: int)
    requires i < |jobs| && Claimable(jobs[i], at) && !Claimable(job, at)
    ensures CountClaimable(jobs[i := job], at) == CountClaimable(jobs, at) - 1
  {
    if i == 0 {
      assert jobs[i := job][1..] == jobs[1..];
    } else {
      CountDrops(jobs[1..], i - 1, job, at);
      assert jobs[i := job][1..] == jobs[1..][i - 1 := job];
    }
  }

  lemma {:induction false} NoneClaimableCountsZero(jobs: seq<Job>, at: int)
    requires CountClaimable(jobs, at) == 0
    ensures forall k :: 0 <= k < |jobs| ==> !Claimable(jobs[k], at)
  {
    if jobs != [] {
      NoneClaimableCountsZero(jobs[1..], at);
      assert forall k :: 0 < k < |jobs| ==> jobs[k] == jobs[1..][k - 1];
    }
  }

  lemma {:induction false} SomeClaimableCounts(jobs: seq<Job>, i: nat, at: int)
    requires i < |jobs| && Claimable(jobs[i], at)
    ensures CountClaimable(jobs, at) > 0
  {
    if i > 0 { SomeClaimableCounts(jobs[1..], i - 1, at); }
  }

  /** While a job is claimable, a claim takes the oldest claimable one, and one fewer is claimable then. */
  lemma ClaimTakesOne(jobs: seq<Job>, workerId: string, at: int, leaseMs: int, i: nat)
    requires i < |jobs| && Claimable(jobs[i], at) && leaseMs > 0
    ensures var best := OldestClaimable(jobs, at, |jobs|);
            var next := AfterClaim(jobs, workerId, at, leaseMs);
            best.Some? && next == jobs[best.value := ClaimedBy(jobs[best.value], workerId, at, leaseMs)] &&
            CountClaimable(jobs, at) == CountClaimable(next, at) + 1
    ensures ClaimTimes(jobs, workerId, at, leaseMs, CountClaimable(jobs, at)) ==
            ClaimTimes(AfterClaim(jobs, workerId, at, leaseMs), workerId, at, leaseMs, CountClaimable(AfterClaim(jobs, workerId, at, leaseMs), at))
  {
    var best := OldestClaimable(jobs, at, |jobs|).value;
    SomeClaimableCounts(jobs, i, at);
    CountDrops(jobs, best, ClaimedBy(jobs[best], workerId, at, leaseMs), at);
  }

  /** Claiming never starves a job: as many claims as there are claimable jobs claim each of them. */
  lemma {:induction false} RepeatedClaimsReachEveryJob(jobs: seq<Job>, workerId: string, at: int, leaseMs: int, i: nat)
    requires i < |jobs| && Claimable(jobs[i], at) && leaseMs > 0
    ensures var after := ClaimTimes(jobs, workerId, at, leaseMs, CountClaimable(jobs, at));
            |after| == |jobs| && after[i] == ClaimedBy(jobs[i], workerId, at, leaseMs)
    decreases CountClaimable(jobs, at)
  {
    var next := AfterClaim(jobs, workerId, at, leaseMs);
    ClaimTakesOne(jobs, workerId, at, leaseMs, i);
    if OldestClaimable(jobs, at, |jobs|).value == i {
      ClaimedStays(next, workerId, at, leaseMs, CountClaimable(next, at), i);
    } else {
      RepeatedClaimsReachEveryJob(next, workerId, at, leaseMs, i);
    }
  }

  lemma {:induction false} ClaimedStays(jobs: seq<Job>, workerId: string, at: int, leaseMs: int, n: nat, i: nat)
    requires i < |jobs| && !Claimable(jobs[i], at)
    ensures var after := ClaimTimes(jobs, workerId, at, leaseMs, n);
            |after| == |jobs| && after[i] == jobs[i]
    decreases n
  {
    if n > 0 {
      ClaimedStays(AfterClaim(jobs, workerId, at, leaseMs), workerId, at, leaseMs, n - 1, i);
    }
  }

  /** A job becomes claimable once its availability and its lease, if any, have passed. */
  lemma JobBecomesClaimable(job: Job, at: int)
    requires JobConsistent(job)
    ensures Claimable(job, at) <==> job.availableAt <= at && !(job.claimed && LeaseRunning(job, at))
  {
  }
}
