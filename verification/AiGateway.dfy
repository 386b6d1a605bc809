/**
 * The AI gateway around the cost controller: reserve, call the provider with at most one retry,
 * then reconcile or release.  Calls in flight interleave at their awaits.
 */
module AiGateway {
  import opened Wrappers
  import opened RateLimits
  import opened AiBudget

  datatype GatewayError = RequestRejected | RateLimited | BudgetExceeded | InvalidResponse | ProviderUnavailable | TimedOut

  predicate Transient(e: GatewayError) {
    e in {RateLimited, ProviderUnavailable, TimedOut}
  }

  datatype Usage = Usage(inputTokens: nat, outputTokens: nat, estimatedCostEur: real)

  /** A component that is not finite is `None`. */
  datatype EmbeddingResult = EmbeddingResult(vectors: seq<seq<Option<real>>>, dimensions: int, usage: Usage)

  datatype Purpose = ForDocument | ForQuery

  datatype EmbeddingRequest = EmbeddingRequest(
    companyId: string, userId: string, texts: seq<string>, dimensions: nat, purpose: Purpose,
    correlationId: string, usageIdempotencyKey: Option<string>)

  datatype GatewayLimits = GatewayLimits(perMinute: int, perDay: int, burst: int)

  function TotalLength(texts: seq<string>): nat {
    if texts == [] then 0 else |texts[0]| + TotalLength(texts[1..])
  }

  function EstimateTokens(texts: seq<string>): nat {
    (TotalLength(texts) + 3) / 4
  }

  function EstimateCost(inputTokens: nat, outputTokens: nat): real {
    inputTokens as real * 0.000001 + outputTokens as real * 0.000004
  }

  function RequestType(purpose: Purpose): string {
    if purpose == ForDocument then "document_embedding" else "query_embedding"
  }

  /** `usageIdempotencyKey ?? requestType:correlationId`. */
  function BudgetKey(requestType: string, correlationId: string, usageIdempotencyKey: Option<string>): string {
    usageIdempotencyKey.GetOr(requestType + ":" + correlationId)
  }

  predicate ValidVector(vector: seq<Option<real>>, dimensions: nat) {
    |vector| == dimensions && forall i :: 0 <= i < |vector| ==> vector[i].Some?
  }

  predicate ValidResult(r: EmbeddingResult, count: nat, dimensions: nat) {
    |r.vectors| == count && r.dimensions == dimensions && forall v :: v in r.vectors ==> ValidVector(v, dimensions)
  }

  /** The reservation an embedding call asks for; its usage key is never forwarded. */
  function Asked(request: EmbeddingRequest, id: string): Reservation {
    Reservation(request.companyId, BudgetKey(RequestType(request.purpose), request.correlationId, None), id,
                EstimateCost(EstimateTokens(request.texts), 0))
  }

  lemma {:induction false} TotalLengthAdds(a: seq<string>, b: seq<string>)
    ensures TotalLength(a + b) == TotalLength(a) + TotalLength(b)
  {
    if a == [] {
      assert a + b == b && TotalLength([]) == 0;
    } else {
      TotalLengthAdds(a[1..], b);
      assert (a + b)[1..] == a[1..] + b;
    }
  }

  lemma OneTextLength(text: string)
    ensures TotalLength([text]) == |text|
  {
    assert [text][1..] == [];
  }

  /**
   * A call reserves a millionth of a euro for every four characters begun, for its own company, under a
   * key that only calls of the same purpose and correlation share.
   */
  lemma ReservedByLength(request: EmbeddingRequest, other: EmbeddingRequest, id: string)
    ensures var r := Asked(request, id);
            r.companyId == request.companyId && r.id == id && r.reservedCostEur >= 0.0 &&
            4.0 * r.reservedCostEur >= TotalLength(request.texts) as real * 0.000001 &&
            4.0 * r.reservedCostEur < (TotalLength(request.texts) + 4) as real * 0.000001
    ensures Asked(request, id).idempotencyKey == Asked(other, id).idempotencyKey <==>
              request.purpose == other.purpose && request.correlationId == other.correlationId
  {
    var tokens := EstimateTokens(request.texts);
    assert TotalLength(request.texts) <= 4 * tokens < TotalLength(request.texts) + 4;
    var k, l := Asked(request, id).idempotencyKey, Asked(other, id).idempotencyKey;
    assert k[0] == (if request.purpose == ForDocument then 'd' else 'q') && l[0] == (if other.purpose == ForDocument then 'd' else 'q');
    var n, m := |RequestType(request.purpose)| + 1, |RequestType(other.purpose)| + 1;
    assert k[n..] == request.correlationId && l[m..] == other.correlationId;
  }

  lemma {:induction false} WithoutAppended(rs: seq<Reservation>, r: Reservation)
    requires FindReservation(rs, r.companyId, r.idempotencyKey).None?
    ensures Without(rs + [r], r.companyId, r.idempotencyKey) == rs
    ensures FindReservation(rs + [r], r.companyId, r.idempotencyKey) == Some(r)
  {
    if rs == [] {
      assert rs + [r] == [r];
    } else {
      WithoutAppended(rs[1..], r);
      assert (rs + [r])[1..] == rs[1..] + [r];
    }
  }

  class DefaultAiGateway {
    const limits: GatewayLimits
    const providerId: string
    const rateLimiter: MemoryAiRateLimiter
    const costController: MemoryAiCostController

    constructor (limits: GatewayLimits, providerId: string, rateLimiter: MemoryAiRateLimiter, costController: MemoryAiCostController)
      ensures this.limits == limits && this.providerId == providerId
      ensures this.rateLimiter == rateLimiter && this.costController == costController
    {
      this.limits := limits;
      this.providerId := providerId;
      this.rateLimiter := rateLimiter;
      this.costController := costController;
    }

    /** The rate limiter lets the call through. */
    ghost predicate Admits(companyId: string, userId: string, requestType: string, nowMs: int)
      reads rateLimiter
    {
      var key := AiLimitKey(companyId, userId, providerId, requestType);
      Allows(Listed(rateLimiter.entries, key), AiRules(limits.perMinute, limits.perDay, limits.burst), nowMs)
    }

    /** The cost controller grants the reservation. */
    ghost predicate Affords(asked: Reservation, now: Instant)
      reads costController
    {
      Grants(costController.Contents(), costController.limits, asked.companyId, asked.idempotencyKey, asked.reservedCostEur, now)
    }

    /** The limiter is asked first, and counts the call even if the budget then refuses it. */
    method Authorize(companyId: string, userId: string, requestType: string, asked: Reservation, nowMs: int, now: Instant)
      returns (r: Result<Reservation, GatewayError>)
      requires asked.companyId == companyId && asked.reservedCostEur >= 0.0
      modifies rateLimiter, costController
      ensures r == Err(RateLimited) <==> !old(Admits(companyId, userId, requestType, nowMs))
      ensures r == Err(BudgetExceeded) <==> old(Admits(companyId, userId, requestType, nowMs)) && !old(Affords(asked, now))
      ensures r == Ok(asked) <==> old(Admits(companyId, userId, requestType, nowMs)) && old(Affords(asked, now))
      ensures r.Ok? ==>
                FindReservation(old(costController.reservations), companyId, asked.idempotencyKey).None? &&
                costController.reservations == old(costController.reservations) + [asked] &&
                costController.usage == old(costController.usage)
      ensures r.Err? ==> costController.Contents() == old(costController.Contents())
      ensures var key := AiLimitKey(companyId, userId, providerId, requestType);
              rateLimiter.entries ==
                if !old(Admits(companyId, userId, requestType, nowMs)) then old(rateLimiter.entries)
                else old(rateLimiter.entries)[key := After(Listed(old(rateLimiter.entries), key), nowMs - DAY) + [nowMs]]
    {
      var key := AiLimitKey(companyId, userId, providerId, requestType);
      var allowed := rateLimiter.Consume(key, limits.perMinute, limits.perDay, limits.burst, nowMs);
      if !allowed {
        return Err(RateLimited);
      }
      var reserved := costController.Reserve(companyId, asked.idempotencyKey, asked.id, asked.reservedCostEur, now);
      if reserved.value.None? {
        return Err(BudgetExceeded);
      }
      return Ok(reserved.value.value);
    }

    /** `answers(k)` is what the provider does when asked the k-th time; `calls` is how often it was asked. */
    method WithRetry<T>(answers: nat -> Result<T, GatewayError>) returns (r: Result<T, GatewayError>, calls: nat)
      ensures 1 <= calls <= 2 && r == answers(calls)
      ensures calls == 2 <==> answers(1).Err? && Transient(answers(1).error)
    {
      calls := 0;
      var attempt := 1;
      while attempt <= 2
        invariant 1 <= attempt <= 2 && calls == attempt - 1
        invariant attempt == 2 ==> answers(1).Err? && Transient(answers(1).error)
        decreases 2 - attempt
      {
        r := answers(attempt);
        calls := calls + 1;
        if r.Ok? || !Transient(r.error) || attempt == 2 {
          return;
        }
        attempt := attempt + 1;
      }
    }

    /**
     * One embedding call on its own.  Whatever the provider answers, the live reservations are as
     * before; usage is charged exactly when the call succeeds, which it does exactly when both guards let
     * it through and the last answer is valid and does not cost a negative amount.
     */
    method Embed(request: EmbeddingRequest, id: string, answers: nat -> Result<EmbeddingResult, GatewayError>, nowMs: int, now: Instant)
      returns (r: Result<EmbeddingResult, GatewayError>, calls: nat)
      modifies rateLimiter, costController
      ensures costController.reservations == old(costController.reservations)
      ensures |request.texts| == 0 ==> r == Err(RequestRejected) && calls == 0
      ensures |request.texts| > 0 ==>
                var admitted := old(Admits(request.companyId, request.userId, RequestType(request.purpose), nowMs));
                (!admitted ==> r == Err(RateLimited) && calls == 0) &&
                (admitted && !old(Affords(Asked(request, id), now)) ==> r == Err(BudgetExceeded) && calls == 0) &&
                (admitted && old(Affords(Asked(request, id), now)) ==>
                   calls == (if answers(1) in {Err(RateLimited), Err(ProviderUnavailable), Err(TimedOut)} then 2 else 1) &&
                   (answers(calls).Err? ==> r == answers(calls)) &&
                   (answers(calls).Ok? ==>
                      var result := answers(calls).value;
                      if |result.vectors| != |request.texts| || result.dimensions != request.dimensions ||
                         exists v :: v in result.vectors && (|v| != request.dimensions || None in v) then r == Err(InvalidResponse)
                      else if result.usage.estimatedCostEur < 0.0 then r == Err(RequestRejected)
                      else r == Ok(result)))
      ensures r.Ok? ==>
                var cost := r.value.usage.estimatedCostEur;
                cost >= 0.0 &&
                costController.usage ==
                Charge(Charge(old(costController.usage), request.companyId, PeriodAt(Daily, now), cost),
                       request.companyId, PeriodAt(Monthly, now), cost)
      ensures r.Err? ==> costController.usage == old(costController.usage)
    {
      calls := 0;
      if |request.texts| == 0 {
        return Err(RequestRejected), 0;
      }
      var asked := Asked(request, id);
      var authorized := Authorize(request.companyId, request.userId, RequestType(request.purpose), asked, nowMs, now);
      if authorized.Err? {
        return Err(authorized.error), 0;
      }
      WithoutAppended(old(costController.reservations), asked);
      var result;
      result, calls := WithRetry(answers);
      if result.Ok? && !ValidResult(result.value, |request.texts|, request.dimensions) {
        result := Err(InvalidResponse);
      }
      if result.Ok? {
        var recorded := costController.Reconcile(asked.companyId, asked.idempotencyKey, result.value.usage.estimatedCostEur, None, now);
        if recorded.Err? {
          result := Err(RequestRejected);
        }
      }
      if result.Err? {
        costController.Release(asked.companyId, asked.idempotencyKey);
      }
      return result, calls;
    }
  }

  // ----- calls in flight -----

  /** While a call is in flight it is known by its company and its budget key. */
  datatype Flight = Flight(books: Books, held: set<(string, string)>)

  /** `End` with a cost is a success, and without one a failure; an invalid cost is a failure too. */
  datatype CallStep =
    | Begin(asked: Reservation)
    | End(companyId: string, key: string, cost: Option<real>)

  function FlightNext(f: Flight, limits: Limits, step: CallStep, now: Instant): Flight {
    match step
    case Begin(r) =>
      if r.reservedCostEur >= 0.0 && Grants(f.books, limits, r.companyId, r.idempotencyKey, r.reservedCostEur, now)
      then Flight(AfterReserve(f.books, limits, r, now), f.held + {(r.companyId, r.idempotencyKey)})
      else f
    case End(companyId, key, cost) =>
      if (companyId, key) !in f.held then f
      else
        var books := if cost.Some? && cost.value >= 0.0 then AfterReconcile(f.books, companyId, key, cost.value, now)
                     else AfterRelease(f.books, companyId, key);
        Flight(books, f.held - {(companyId, key)})
  }

  function FlightRun(f: Flight, limits: Limits, steps: seq<(Instant, CallStep)>): Flight
    decreases |steps|
  {
    if steps == [] then f
    else FlightRun(FlightNext(f, limits, steps[0].1, steps[0].0), limits, steps[1..])
  }

  /** The reservations that no call in flight holds. */
  function Others(rs: seq<Reservation>, held: set<(string, string)>): seq<Reservation> {
    if rs == [] then []
    else (if (rs[0].companyId, rs[0].idempotencyKey) in held then [] else [rs[0]]) + Others(rs[1..], held)
  }

  predicate OnePerKey(rs: seq<Reservation>) {
    rs == [] || (FindReservation(rs[1..], rs[0].companyId, rs[0].idempotencyKey).None? && OnePerKey(rs[1..]))
  }

  lemma {:induction false} FindOfTail(rs: seq<Reservation>, r: Reservation, companyId: string, key: string)
    ensures FindReservation(rs + [r], companyId, key) ==
            if FindReservation(rs, companyId, key).Some? then FindReservation(rs, companyId, key)
            else if IsFor(r, companyId, key) then Some(r) else None
  {
    if rs == [] {
      assert rs + [r] == [r];
    } else {
      FindOfTail(rs[1..], r, companyId, key);
      assert (rs + [r])[1..] == rs[1..] + [r];
    }
  }

  lemma {:induction false} BeginKeeps(rs: seq<Reservation>, r: Reservation, held: set<(string, string)>)
    requires OnePerKey(rs) && FindReservation(rs, r.companyId, r.idempotencyKey).None?
    ensures OnePerKey(rs + [r]) && Others(rs + [r], held + {(r.companyId, r.idempotencyKey)}) == Others(rs, held)
  {
    if rs == [] {
      assert rs + [r] == [r] && [r][1..] == [];
    } else {
      BeginKeeps(rs[1..], r, held);
      assert (rs + [r])[1..] == rs[1..] + [r];
      FindOfTail(rs[1..], r, rs[0].companyId, rs[0].idempotencyKey);
    }
  }

  lemma {:induction false} OthersIgnoreAbsent(rs: seq<Reservation>, companyId: string, key: string, held: set<(string, string)>)
    requires FindReservation(rs, companyId, key).None?
    ensures Others(rs, held - {(companyId, key)}) == Others(rs, held)
  {
    if rs != [] {
      OthersIgnoreAbsent(rs[1..], companyId, key, held);
    }
  }

  lemma {:induction false} FindInWithout(rs: seq<Reservation>, companyId: string, key: string, owner: string, other: string)
    requires FindReservation(rs, owner, other).None?
    ensures FindReservation(Without(rs, companyId, key), owner, other).None?
  {
    if rs != [] && !IsFor(rs[0], companyId, key) {
      FindInWithout(rs[1..], companyId, key, owner, other);
      var tail := Without(rs[1..], companyId, key);
      assert ([rs[0]] + tail)[1..] == tail;
    }
  }

  lemma {:induction false} EndKeeps(rs: seq<Reservation>, companyId: string, key: string, held: set<(string, string)>)
    requires OnePerKey(rs) && (companyId, key) in held
    ensures OnePerKey(Without(rs, companyId, key))
    ensures Others(Without(rs, companyId, key), held - {(companyId, key)}) == Others(rs, held)
  {
    if rs != [] {
      if IsFor(rs[0], companyId, key) {
        OthersIgnoreAbsent(rs[1..], companyId, key, held);
        assert [] + Others(rs[1..], held) == Others(rs[1..], held);
      } else {
        EndKeeps(rs[1..], companyId, key, held);
        var tail := Without(rs[1..], companyId, key);
        assert ([rs[0]] + tail)[1..] == tail;
        FindInWithout(rs[1..], companyId, key, rs[0].companyId, rs[0].idempotencyKey);
      }
    }
  }

  lemma {:induction false} WithoutAbsent(rs: seq<Reservation>, companyId: string, key: string)
    requires FindReservation(rs, companyId, key).None?
    ensures Without(rs, companyId, key) == rs
  {
    if rs != [] {
      WithoutAbsent(rs[1..], companyId, key);
    }
  }

  /**
   * However calls interleave, the reservations that no call in flight holds stay exactly the same;
   * so when all calls are over, the live reservations are what they were.
   */
  lemma {:induction false} FlightsLeaveReservations(f: Flight, limits: Limits, steps: seq<(Instant, CallStep)>)
    requires OnePerKey(f.books.reservations)
    ensures var g := FlightRun(f, limits, steps);
            OnePerKey(g.books.reservations) && Others(g.books.reservations, g.held) == Others(f.books.reservations, f.held)
    decreases |steps|
  {
    if steps != [] {
      var (now, step) := steps[0];
      var next := FlightNext(f, limits, step, now);
      if next != f {
        if step.Begin? {
          BeginKeeps(f.books.reservations, step.asked, f.held);
        } else {
          EndKeeps(f.books.reservations, step.companyId, step.key, f.held);
          if FindReservation(f.books.reservations, step.companyId, step.key).None? {
            WithoutAbsent(f.books.reservations, step.companyId, step.key);
          }
        }
      }
      FlightsLeaveReservations(next, limits, steps[1..]);
    }
  }

  lemma {:induction false} OthersOfNone(rs: seq<Reservation>)
    ensures Others(rs, {}) == rs
  {
    if rs != [] {
      OthersOfNone(rs[1..]);
    }
  }

  predicate NoRefund(f: Flight) {
    forall r :: r in f.books.reservations ==> r.reservedCostEur >= 0.0
  }

  lemma {:induction false} WithoutSubset(rs: seq<Reservation>, companyId: string, key: string)
    ensures forall r :: r in Without(rs, companyId, key) ==> r in rs
  {
    if rs != [] && !IsFor(rs[0], companyId, key) {
      WithoutSubset(rs[1..], companyId, key);
    }
  }

  /** However calls interleave, no usage ever falls, and no reservation is negative. */
  lemma {:induction false} FlightsNeverRefund(f: Flight, limits: Limits, steps: seq<(Instant, CallStep)>, companyId: string, p: Period)
    requires NoRefund(f)
    ensures var g := FlightRun(f, limits, steps);
            NoRefund(g) && UsageOf(g.books.usage, companyId, p) >= UsageOf(f.books.usage, companyId, p)
    decreases |steps|
  {
    if steps != [] {
      var (now, step) := steps[0];
      if step.End? {
        WithoutSubset(f.books.reservations, step.companyId, step.key);
      }
      FlightsNeverRefund(FlightNext(f, limits, step, now), limits, steps[1..], companyId, p);
    }
  }

  lemma AllCallsOver(books: Books, limits: Limits, steps: seq<(Instant, CallStep)>)
    requires OnePerKey(books.reservations) && FlightRun(Flight(books, {}), limits, steps).held == {}
    ensures FlightRun(Flight(books, {}), limits, steps).books.reservations == books.reservations
  {
    FlightsLeaveReservations(Flight(books, {}), limits, steps);
    OthersOfNone(books.reservations);
    OthersOfNone(FlightRun(Flight(books, {}), limits, steps).books.reservations);
  }

  /**
   * Two batches of one job ask under the same key, whatever usage keys they carry: the second is
   * refused while the first is in flight, at any price, and is judged by the budget alone afterwards.
   */
  lemma BatchesOfOneJobShareKey(b: Books, limits: Limits, first: EmbeddingRequest, second: EmbeddingRequest, ids: (string, string), cost: real, now: Instant, later: Instant)
    requires first.companyId == second.companyId && first.purpose == second.purpose && first.correlationId == second.correlationId
    requires var r := Asked(first, ids.0); Grants(b, limits, r.companyId, r.idempotencyKey, r.reservedCostEur, now)
    ensures var r1, r2 := Asked(first, ids.0), Asked(second, ids.1);
            var during := AfterReserve(b, limits, r1, now);
            var after := AfterReconcile(during, r1.companyId, r1.idempotencyKey, cost, later);
            !Grants(during, limits, r2.companyId, r2.idempotencyKey, r2.reservedCostEur, later) &&
            after.reservations == b.reservations &&
            (Grants(after, limits, r2.companyId, r2.idempotencyKey, r2.reservedCostEur, later) <==>
              !Exceeds(after, r2.companyId, Daily, limits.daily, r2.reservedCostEur, later) &&
              !Exceeds(after, r2.companyId, Monthly, limits.monthly, r2.reservedCostEur, later))
  {
    WithoutAppended(b.reservations, Asked(first, ids.0));
  }
}
