/**
 * The in-memory AI cost controller: reservations against a daily and a monthly limit, and the
 * usage charged when they are reconciled, on whatever day that happens.
 */
module AiBudget {
  import opened Wrappers

  datatype Kind = Daily | Monthly

  /** A calendar day or month, numbered in time order. */
  datatype Period = Period(kind: Kind, number: int)

  /** What the clock shows: its day and its month. */
  datatype Instant = Instant(day: int, month: int)

  function PeriodAt(kind: Kind, now: Instant): Period {
    Period(kind, if kind == Daily then now.day else now.month)
  }

  predicate NotBefore(later: Instant, earlier: Instant) {
    earlier.day <= later.day && earlier.month <= later.month
  }

  datatype Reservation = Reservation(companyId: string, idempotencyKey: string, id: string, reservedCostEur: real)

  /** `reservations` in insertion order; a limit of zero or less is no limit. */
  datatype Books = Books(reservations: seq<Reservation>, usage: map<(string, Period), real>)

  datatype Limits = Limits(daily: real, monthly: real)

  datatype CostError = NegativeCost

  function LimitOf(limits: Limits, kind: Kind): real {
    if kind == Daily then limits.daily else limits.monthly
  }

  function UsageOf(usage: map<(string, Period), real>, companyId: string, p: Period): real {
    if (companyId, p) in usage then usage[(companyId, p)] else 0.0
  }

  predicate IsFor(r: Reservation, companyId: string, key: string) {
    r.companyId == companyId && r.idempotencyKey == key
  }

  function FindReservation(rs: seq<Reservation>, companyId: string, key: string): (r: Option<Reservation>)
    ensures r.Some? ==> r.value in rs && IsFor(r.value, companyId, key)
    ensures r.None? ==> forall x :: x in rs ==> !IsFor(x, companyId, key)
  {
    if rs == [] then None
    else if IsFor(rs[0], companyId, key) then Some(rs[0])
    else FindReservation(rs[1..], companyId, key)
  }

  function Without(rs: seq<Reservation>, companyId: string, key: string): seq<Reservation> {
    if rs == [] then []
    else if IsFor(rs[0], companyId, key) then rs[1..]
    else [rs[0]] + Without(rs[1..], companyId, key)
  }

  /** What a company has reserved. */
  function Reserved(rs: seq<Reservation>, companyId: string): real {
    if rs == [] then 0.0
    else (if rs[0].companyId == companyId then rs[0].reservedCostEur else 0.0) + Reserved(rs[1..], companyId)
  }

  predicate Exceeds(b: Books, companyId: string, kind: Kind, limit: real, cost: real, now: Instant) {
    limit > 0.0 && UsageOf(b.usage, companyId, PeriodAt(kind, now)) + Reserved(b.reservations, companyId) + cost > limit
  }

  predicate Grants(b: Books, limits: Limits, companyId: string, key: string, cost: real, now: Instant) {
    FindReservation(b.reservations, companyId, key).None? &&
    !Exceeds(b, companyId, Daily, limits.daily, cost, now) && !Exceeds(b, companyId, Monthly, limits.monthly, cost, now)
  }

  function AfterReserve(b: Books, limits: Limits, r: Reservation, now: Instant): Books {
    if Grants(b, limits, r.companyId, r.idempotencyKey, r.reservedCostEur, now)
    then b.(reservations := b.reservations + [r])
    else b
  }

  function Charge(usage: map<(string, Period), real>, companyId: string, p: Period, cost: real): map<(string, Period), real> {
    usage[(companyId, p) := UsageOf(usage, companyId, p) + cost]
  }

  function AfterReconcile(b: Books, companyId: string, key: string, cost: real, now: Instant): Books {
    if FindReservation(b.reservations, companyId, key).None? then b
    else Books(Without(b.reservations, companyId, key),
               Charge(Charge(b.usage, companyId, PeriodAt(Daily, now), cost), companyId, PeriodAt(Monthly, now), cost))
  }

  function AfterRelease(b: Books, companyId: string, key: string): Books {
    b.(reservations := Without(b.reservations, companyId, key))
  }

  class MemoryAiCostController {
    const limits: Limits
    var reservations: seq<Reservation>
    var usage: map<(string, Period), real>

    constructor (dailyLimitEur: real, monthlyLimitEur: Option<real>)
      ensures Contents() == Books([], map[])
      ensures limits == Limits(dailyLimitEur, monthlyLimitEur.GetOr(if dailyLimitEur > 0.0 then dailyLimitEur * 31.0 else 0.0))
    {
      limits := Limits(dailyLimitEur, monthlyLimitEur.GetOr(if dailyLimitEur > 0.0 then dailyLimitEur * 31.0 else 0.0));
      reservations := [];
      usage := map[];
    }

    function Contents(): Books
      reads this
    {
      Books(reservations, usage)
    }

    method Reserve(companyId: string, key: string, id: string, estimatedCostEur: real, now: Instant)
      returns (r: Result<Option<Reservation>, CostError>)
      modifies this
      ensures r.Err? <==> estimatedCostEur < 0.0
      ensures r.Err? ==> Contents() == old(Contents())
      ensures r.Ok? ==>
                var asked := Reservation(companyId, key, id, estimatedCostEur);
                Contents() == AfterReserve(old(Contents()), limits, asked, now) &&
                r.value == if Grants(old(Contents()), limits, companyId, key, estimatedCostEur, now) then Some(asked) else None
    {
      if estimatedCostEur < 0.0 {
        return Err(NegativeCost);
      }
      if FindReservation(reservations, companyId, key).Some? {
        return Ok(None);
      }
      var daily := UsageOf(usage, companyId, Period(Daily, now.day));
      var monthly := UsageOf(usage, companyId, Period(Monthly, now.month));
      var reserved := TotalReserved(companyId);
      if (limits.daily > 0.0 && daily + reserved + estimatedCostEur > limits.daily) ||
         (limits.monthly > 0.0 && monthly + reserved + estimatedCostEur > limits.monthly) {
        return Ok(None);
      }
      var reservation := Reservation(companyId, key, id, estimatedCostEur);
      reservations := reservations + [reservation];
      return Ok(Some(reservation));
    }

    method TotalReserved(companyId: string) returns (sum: real)
      ensures sum == Reserved(reservations, companyId)
    {
      sum := 0.0;
      for i := 0 to |reservations|
        invariant sum + Reserved(reservations[i..], companyId) == Reserved(reservations, companyId)
      {
        assert reservations[i..][1..] == reservations[i + 1..];
        if reservations[i].companyId == companyId {
          sum := sum + reservations[i].reservedCostEur;
        }
      }
    }

    method Reconcile(companyId: string, key: string, estimatedCostEur: real, actualCostEur: Option<real>, now: Instant)
      returns (r: Result<bool, CostError>)
      modifies this
      ensures r.Err? <==> estimatedCostEur < 0.0
      ensures r.Err? ==> Contents() == old(Contents())
      ensures r.Ok? ==>
                r.value == FindReservation(old(reservations), companyId, key).Some? &&
                Contents() == AfterReconcile(old(Contents()), companyId, key, actualCostEur.GetOr(estimatedCostEur), now)
    {
      if estimatedCostEur < 0.0 {
        return Err(NegativeCost);
      }
      if FindReservation(reservations, companyId, key).None? {
        return Ok(false);
      }
      reservations := Without(reservations, companyId, key);
      var cost := actualCostEur.GetOr(estimatedCostEur);
      usage := Charge(usage, companyId, Period(Daily, now.day), cost);
      usage := Charge(usage, companyId, Period(Monthly, now.month), cost);
      return Ok(true);
    }

    method Release(companyId: string, key: string)
      modifies this
      ensures Contents() == AfterRelease(old(Contents()), companyId, key)
    {
      reservations := Without(reservations, companyId, key);
    }
  }

  // ----- runs -----

  datatype Step =
    | Reserve(reservation: Reservation)
    | Reconcile(companyId: string, key: string, estimated: real, actual: Option<real>)
    | Release(companyId: string, key: string)

  /** The controller's books, and for each company and period the overruns charged there. */
  datatype Audit = Audit(books: Books, overruns: map<(string, Period), real>)

  function Cost(step: Step): real
    requires step.Reconcile?
  {
    step.actual.GetOr(step.estimated)
  }

  function Overrun(cost: real, reserved: real): real {
    if cost > reserved then cost - reserved else 0.0
  }

  function Perform(a: Audit, limits: Limits, step: Step, now: Instant): Audit {
    match step
    case Reserve(r) =>
      if r.reservedCostEur < 0.0 then a else a.(books := AfterReserve(a.books, limits, r, now))
    case Reconcile(companyId, key, estimated, _) =>
      var found := FindReservation(a.books.reservations, companyId, key);
      if estimated < 0.0 || found.None? then a
      else
        var over := Overrun(Cost(step), found.value.reservedCostEur);
        Audit(AfterReconcile(a.books, companyId, key, Cost(step), now),
              Charge(Charge(a.overruns, companyId, PeriodAt(Daily, now), over), companyId, PeriodAt(Monthly, now), over))
    case Release(companyId, key) => a.(books := AfterRelease(a.books, companyId, key))
  }

  /** The gateway never passes an actual cost; a caller that does must not pass a negative one. */
  predicate CostNotNegative(step: Step) {
    step.Reconcile? && step.actual.Some? ==> step.actual.value >= 0.0
  }

  const Empty: Audit := Audit(Books([], map[]), map[])

  function Execute(limits: Limits, steps: seq<(Instant, Step)>): Audit {
    if steps == [] then Empty
    else
      var (now, step) := steps[|steps| - 1];
      Perform(Execute(limits, steps[..|steps| - 1]), limits, step, now)
  }

  predicate ClockNeverGoesBack(steps: seq<(Instant, Step)>) {
    forall i :: 0 <= i < |steps| - 1 ==> NotBefore(steps[i + 1].0, steps[i].0)
  }

  /** Reconciling charges the day and the month of the moment, for that company, and no others. */
  lemma ChargesDayAndMonth(b: Books, companyId: string, key: string, cost: real, now: Instant, other: string, number: int)
    requires FindReservation(b.reservations, companyId, key).Some?
    ensures var after := AfterReconcile(b, companyId, key, cost, now);
            UsageOf(after.usage, other, Period(Daily, number)) ==
              UsageOf(b.usage, other, Period(Daily, number)) + (if other == companyId && number == now.day then cost else 0.0) &&
            UsageOf(after.usage, other, Period(Monthly, number)) ==
              UsageOf(b.usage, other, Period(Monthly, number)) + (if other == companyId && number == now.month then cost else 0.0)
  {
  }

  /** A reservation is granted exactly if its key is free and neither positive limit would be passed by what is used and reserved. */
  lemma GrantsIff(b: Books, limits: Limits, companyId: string, key: string, cost: real, now: Instant)
    ensures var reserved := Reserved(b.reservations, companyId) + cost;
            Grants(b, limits, companyId, key, cost, now) <==>
              (forall r :: r in b.reservations ==> !(r.companyId == companyId && r.idempotencyKey == key)) &&
              (limits.daily > 0.0 ==> UsageOf(b.usage, companyId, Period(Daily, now.day)) + reserved <= limits.daily) &&
              (limits.monthly > 0.0 ==> UsageOf(b.usage, companyId, Period(Monthly, now.month)) + reserved <= limits.monthly)
  {
    assert forall r :: r in b.reservations ==> (IsFor(r, companyId, key) <==> r.companyId == companyId && r.idempotencyKey == key);
  }

  // ----- a company's usage stays within its limit and its overruns -----

  predicate NothingNegative(a: Audit) {
    (forall r :: r in a.books.reservations ==> r.reservedCostEur >= 0.0) &&
    (forall k :: k in a.books.usage ==> a.books.usage[k] >= 0.0) &&
    (forall k :: k in a.overruns ==> a.overruns[k] >= 0.0)
  }

  predicate NoFuture(a: Audit, now: Instant) {
    forall k :: k in a.books.usage ==> k.1.number <= PeriodAt(k.1.kind, now).number
  }

  predicate WithinLimit(a: Audit, companyId: string, p: Period, limit: real, pending: real) {
    UsageOf(a.books.usage, companyId, p) + pending <= limit + UsageOf(a.overruns, companyId, p)
  }

  ghost predicate Inv(a: Audit, limits: Limits, companyId: string, kind: Kind, now: Instant) {
    var limit := LimitOf(limits, kind);
    var pending := Reserved(a.books.reservations, companyId);
    NothingNegative(a) && NoFuture(a, now) && pending <= limit && WithinLimit(a, companyId, PeriodAt(kind, now), limit, pending) &&
    forall p: Period :: p.kind == kind ==> WithinLimit(a, companyId, p, limit, 0.0)
  }

  lemma {:induction false} ReservedNotNegative(rs: seq<Reservation>, companyId: string)
    requires forall r :: r in rs ==> r.reservedCostEur >= 0.0
    ensures Reserved(rs, companyId) >= 0.0
  {
    if rs != [] {
      assert forall r :: r in rs[1..] ==> r in rs;
      ReservedNotNegative(rs[1..], companyId);
      assert rs[0] in rs;
    }
  }

  lemma {:induction false} ReservedAppend(rs: seq<Reservation>, r: Reservation, companyId: string)
    ensures Reserved(rs + [r], companyId) == Reserved(rs, companyId) + if r.companyId == companyId then r.reservedCostEur else 0.0
  {
    if rs == [] {
      assert [r][1..] == [];
      assert rs + [r] == [r];
    } else {
      ReservedAppend(rs[1..], r, companyId);
      assert (rs + [r])[1..] == rs[1..] + [r];
    }
  }

  lemma {:induction false} ReservedWithout(rs: seq<Reservation>, companyId: string, owner: string, key: string)
    ensures var found := FindReservation(rs, owner, key);
            Reserved(Without(rs, owner, key), companyId) ==
            Reserved(rs, companyId) - if found.Some? && owner == companyId then found.value.reservedCostEur else 0.0
    ensures forall r :: r in Without(rs, owner, key) ==> r in rs
  {
    if rs != [] && !IsFor(rs[0], owner, key) {
      ReservedWithout(rs[1..], companyId, owner, key);
      assert ([rs[0]] + Without(rs[1..], owner, key))[1..] == Without(rs[1..], owner, key);
    }
  }

  lemma NewPeriodStartsEmpty(a: Audit, limits: Limits, companyId: string, kind: Kind, now: Instant, later: Instant)
    requires Inv(a, limits, companyId, kind, now) && NotBefore(later, now)
    ensures Inv(a, limits, companyId, kind, later)
  {
    var p := PeriodAt(kind, later);
    if p != PeriodAt(kind, now) {
      assert (companyId, p) !in a.books.usage;
    }
  }

  lemma ReserveKeeps(a: Audit, limits: Limits, companyId: string, kind: Kind, now: Instant, r: Reservation)
    requires Inv(a, limits, companyId, kind, now) && LimitOf(limits, kind) > 0.0
    ensures Inv(Perform(a, limits, Reserve(r), now), limits, companyId, kind, now)
  {
    ReservedAppend(a.books.reservations, r, companyId);
  }

  lemma ReleaseKeeps(a: Audit, limits: Limits, companyId: string, kind: Kind, now: Instant, owner: string, key: string)
    requires Inv(a, limits, companyId, kind, now)
    ensures Inv(Perform(a, limits, Release(owner, key), now), limits, companyId, kind, now)
  {
    ReservedWithout(a.books.reservations, companyId, owner, key);
  }

  /** A charge and its overrun keep usage within the limit, period by period. */
  lemma ChargeKeeps(usage: map<(string, Period), real>, overruns: map<(string, Period), real>, owner: string, now: Instant, cost: real, over: real, companyId: string, p: Period)
    requires cost >= 0.0 && over >= 0.0
    ensures var u := Charge(Charge(usage, owner, PeriodAt(Daily, now), cost), owner, PeriodAt(Monthly, now), cost);
            var o := Charge(Charge(overruns, owner, PeriodAt(Daily, now), over), owner, PeriodAt(Monthly, now), over);
            var hit := owner == companyId && p == PeriodAt(p.kind, now);
            UsageOf(u, companyId, p) == UsageOf(usage, companyId, p) + (if hit then cost else 0.0) &&
            UsageOf(o, companyId, p) == UsageOf(overruns, companyId, p) + (if hit then over else 0.0)
  {
  }

  lemma NothingNegativeAfter(a: Audit, limits: Limits, now: Instant, step: Step)
    requires NothingNegative(a) && NoFuture(a, now) && step.Reconcile? && CostNotNegative(step)
    ensures NothingNegative(Perform(a, limits, step, now)) && NoFuture(Perform(a, limits, step, now), now)
  {
    ReservedWithout(a.books.reservations, step.companyId, step.companyId, step.key);
  }

  lemma ReconcileKeeps(a: Audit, limits: Limits, companyId: string, kind: Kind, now: Instant, step: Step)
    requires Inv(a, limits, companyId, kind, now) && step.Reconcile? && CostNotNegative(step)
    ensures Inv(Perform(a, limits, step, now), limits, companyId, kind, now)
  {
    var found := FindReservation(a.books.reservations, step.companyId, step.key);
    if step.estimated >= 0.0 && found.Some? {
      var b := Perform(a, limits, step, now);
      var over := Overrun(Cost(step), found.value.reservedCostEur);
      NothingNegativeAfter(a, limits, now, step);
      ReservedWithout(a.books.reservations, companyId, step.companyId, step.key);
      ReservedNotNegative(b.books.reservations, companyId);
      forall p: Period | p.kind == kind
        ensures WithinLimit(b, companyId, p, LimitOf(limits, kind), if p == PeriodAt(kind, now) then Reserved(b.books.reservations, companyId) else 0.0)
      {
        ChargeKeeps(a.books.usage, a.overruns, step.companyId, now, Cost(step), over, companyId, p);
        assert WithinLimit(a, companyId, p, LimitOf(limits, kind), 0.0);
      }
    }
  }

  lemma {:induction false} RunKeeps(limits: Limits, steps: seq<(Instant, Step)>, companyId: string, kind: Kind, now: Instant)
    requires LimitOf(limits, kind) > 0.0
    requires ClockNeverGoesBack(steps) && (steps != [] ==> NotBefore(now, steps[|steps| - 1].0))
    requires forall i :: 0 <= i < |steps| ==> CostNotNegative(steps[i].1)
    ensures Inv(Execute(limits, steps), limits, companyId, kind, now)
    decreases |steps|
  {
    if steps != [] {
      var (at, step) := steps[|steps| - 1];
      RunKeeps(limits, steps[..|steps| - 1], companyId, kind, at);
      var a := Execute(limits, steps[..|steps| - 1]);
      match step {
        case Reserve(r) => ReserveKeeps(a, limits, companyId, kind, at, r);
        case Release(owner, key) => ReleaseKeeps(a, limits, companyId, kind, at, owner, key);
        case Reconcile(_, _, _, _) => ReconcileKeeps(a, limits, companyId, kind, at, step);
      }
      NewPeriodStartsEmpty(Execute(limits, steps), limits, companyId, kind, at, now);
    }
  }

  /**
   * In every run under a clock that never goes back, a company's usage in any day (or month) is at
   * most the limit plus the overruns charged there, whenever the reservations were made.
   */
  lemma UsageStaysWithinLimit(limits: Limits, steps: seq<(Instant, Step)>, companyId: string, p: Period)
    requires LimitOf(limits, p.kind) > 0.0 && ClockNeverGoesBack(steps)
    requires forall i :: 0 <= i < |steps| ==> CostNotNegative(steps[i].1)
    ensures var a := Execute(limits, steps);
            UsageOf(a.books.usage, companyId, p) <= LimitOf(limits, p.kind) + UsageOf(a.overruns, companyId, p)
  {
    var now := if steps == [] then Instant(0, 0) else steps[|steps| - 1].0;
    RunKeeps(limits, steps, companyId, p.kind, now);
    assert WithinLimit(Execute(limits, steps), companyId, p, LimitOf(limits, p.kind), 0.0);
  }

  // ----- exactly which actual costs keep the bound -----

  predicate CostsAtLeast(steps: seq<(Instant, Step)>, least: real) {
    forall i :: 0 <= i < |steps| && steps[i].1.Reconcile? && steps[i].1.actual.Some? ==> steps[i].1.actual.value >= least
  }

  predicate BoundHolds(limits: Limits, steps: seq<(Instant, Step)>, companyId: string, p: Period) {
    var a := Execute(limits, steps);
    UsageOf(a.books.usage, companyId, p) <= LimitOf(limits, p.kind) + UsageOf(a.overruns, companyId, p)
  }

  /** The bound on days (or months) holds in every run whose actual costs are all at least `least`. */
  ghost predicate AlwaysBounded(limits: Limits, kind: Kind, least: real) {
    forall steps, companyId, p: Period :: p.kind == kind && ClockNeverGoesBack(steps) && CostsAtLeast(steps, least) ==>
      BoundHolds(limits, steps, companyId, p)
  }

  const Today: Instant := Instant(0, 0)
  const Tomorrow: Instant := Instant(1, 1)
  const Nothing: Reservation := Reservation("c", "refund", "1", 0.0)

  /** A call that was expected to cost nothing is charged a negative cost; n times over. */
  function Refunds(n: nat, cost: real): seq<(Instant, Step)> {
    if n == 0 then []
    else Refunds(n - 1, cost) + [(Today, Reserve(Nothing))] + [(Today, Reconcile("c", "refund", 0.0, Some(cost)))]
  }

  function Total(n: nat, cost: real): real {
    if n == 0 then 0.0 else Total(n - 1, cost) + cost
  }

  /** Today's usage is `total` in both periods; nothing is reserved, and tomorrow has not begun. */
  predicate Refunded(a: Audit, total: real) {
    a.books.reservations == [] &&
    UsageOf(a.books.usage, "c", PeriodAt(Daily, Today)) == total && UsageOf(a.books.usage, "c", PeriodAt(Monthly, Today)) == total &&
    forall kind :: ("c", PeriodAt(kind, Tomorrow)) !in a.books.usage && ("c", PeriodAt(kind, Tomorrow)) !in a.overruns
  }

  lemma OneStep(limits: Limits, steps: seq<(Instant, Step)>, now: Instant, step: Step)
    ensures Execute(limits, steps + [(now, step)]) == Perform(Execute(limits, steps), limits, step, now)
  {
    assert (steps + [(now, step)])[..|steps|] == steps;
  }

  lemma RefundOnce(limits: Limits, a: Audit, total: real, cost: real)
    requires Refunded(a, total) && total <= 0.0 && cost <= 0.0
    ensures var b := Perform(a, limits, Reserve(Nothing), Today);
            Refunded(Perform(b, limits, Reconcile("c", "refund", 0.0, Some(cost)), Today), total + cost)
  {
    var b := Perform(a, limits, Reserve(Nothing), Today);
    assert b.books.reservations == [Nothing];
  }

  lemma {:induction false} RefundsAddUp(limits: Limits, n: nat, cost: real)
    requires cost <= 0.0
    ensures Total(n, cost) <= 0.0 && Refunded(Execute(limits, Refunds(n, cost)), Total(n, cost))
  {
    if n > 0 {
      var before := Refunds(n - 1, cost);
      RefundsAddUp(limits, n - 1, cost);
      RefundOnce(limits, Execute(limits, before), Total(n - 1, cost), cost);
      OneStep(limits, before, Today, Reserve(Nothing));
      OneStep(limits, before + [(Today, Reserve(Nothing))], Today, Reconcile("c", "refund", 0.0, Some(cost)));
    }
  }

  lemma {:induction false} RefundsAreOrderly(n: nat, cost: real)
    ensures CostsAtLeast(Refunds(n, cost), cost) && forall i :: 0 <= i < |Refunds(n, cost)| ==> Refunds(n, cost)[i].0 == Today
  {
    if n > 0 {
      RefundsAreOrderly(n - 1, cost);
    }
  }

  /** The least limit that is one. */
  function Tightest(limits: Limits): real {
    if limits.daily <= 0.0 || (0.0 < limits.monthly < limits.daily) then limits.monthly else limits.daily
  }

  function Saved(limits: Limits, total: real): Reservation {
    Reservation("c", "spend", "2", Tightest(limits) - total)
  }

  /** What was refunded today can be reserved on top of the limit, and is charged tomorrow without any overrun. */
  lemma SpendTomorrow(limits: Limits, kind: Kind, a: Audit, total: real)
    requires Refunded(a, total) && total <= 0.0 && LimitOf(limits, kind) > 0.0
    ensures var r := Saved(limits, total);
            var b := Perform(a, limits, Reserve(r), Today);
            var c := Perform(b, limits, Reconcile("c", "spend", r.reservedCostEur, None), Tomorrow);
            UsageOf(c.books.usage, "c", PeriodAt(kind, Tomorrow)) == Tightest(limits) - total &&
            UsageOf(c.overruns, "c", PeriodAt(kind, Tomorrow)) == 0.0
  {
    var r := Saved(limits, total);
    var b := Perform(a, limits, Reserve(r), Today);
    assert b == a.(books := a.books.(reservations := [r]));
    assert FindReservation([r], "c", "spend") == Some(r);
  }

  lemma {:induction false} TotalIs(n: nat, cost: real)
    ensures Total(n, cost) == n as real * cost
  {
    if n > 0 {
      TotalIs(n - 1, cost);
      assert (n - 1) as real * cost + cost == n as real * cost;
    }
  }

  lemma EnoughRefunds(cost: real, gap: real) returns (n: nat)
    requires cost < 0.0 && gap >= 0.0
    ensures -Total(n, cost) > gap
  {
    var quotient := gap / -cost;
    n := quotient.Floor + 1;
    TotalIs(n, cost);
    assert n as real > quotient;
    assert n as real * -cost > quotient * -cost;
  }

  /** A run that spends more tomorrow than the limit, without any overrun. */
  function SpendingRun(limits: Limits, n: nat, cost: real): seq<(Instant, Step)> {
    var r := Saved(limits, Total(n, cost));
    Refunds(n, cost) + [(Today, Reserve(r))] + [(Tomorrow, Reconcile("c", "spend", r.reservedCostEur, None))]
  }

  lemma NegativeCostBreaksLimit(limits: Limits, kind: Kind, cost: real) returns (n: nat)
    requires LimitOf(limits, kind) > 0.0 && cost < 0.0
    ensures ClockNeverGoesBack(SpendingRun(limits, n, cost)) && CostsAtLeast(SpendingRun(limits, n, cost), cost)
    ensures !BoundHolds(limits, SpendingRun(limits, n, cost), "c", PeriodAt(kind, Tomorrow))
  {
    n := EnoughRefunds(cost, LimitOf(limits, kind) - Tightest(limits));
    var refunds, r := Refunds(n, cost), Saved(limits, Total(n, cost));
    RefundsAreOrderly(n, cost);
    RefundsAddUp(limits, n, cost);
    SpendTomorrow(limits, kind, Execute(limits, refunds), Total(n, cost));
    OneStep(limits, refunds, Today, Reserve(r));
    OneStep(limits, refunds + [(Today, Reserve(r))], Tomorrow, Reconcile("c", "spend", r.reservedCostEur, None));
  }

  /** For every positive limit: the bound holds in all runs with such actual costs if and only if none may be negative. */
  lemma BoundIffCostsNotNegative(limits: Limits, kind: Kind, least: real)
    requires LimitOf(limits, kind) > 0.0
    ensures AlwaysBounded(limits, kind, least) <==> least >= 0.0
  {
    if least >= 0.0 {
      forall steps, companyId, p: Period | p.kind == kind && ClockNeverGoesBack(steps) && CostsAtLeast(steps, least)
        ensures BoundHolds(limits, steps, companyId, p)
      {
        UsageStaysWithinLimit(limits, steps, companyId, p);
      }
    } else {
      var n := NegativeCostBreaksLimit(limits, kind, least);
      assert PeriodAt(kind, Tomorrow).kind == kind;
    }
  }
}
