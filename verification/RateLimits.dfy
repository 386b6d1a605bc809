/**
 * The in-memory rate limiters: two sliding windows that prune their lists as they go, and the API
 * limiter that counts per clock minute.
 */
module RateLimits {
  import opened Wrappers

  // ----- sliding windows -----

  /** Fewer than `limit` accepted calls in the last `window` milliseconds. */
  datatype Rule = Rule(window: nat, limit: int)

  function After(times: seq<int>, cutoff: int): seq<int> {
    if times == [] then []
    else (if times[0] > cutoff then [times[0]] else []) + After(times[1..], cutoff)
  }

  predicate Allows(times: seq<int>, rules: seq<Rule>, now: int) {
    forall r :: r in rules ==> |After(times, now - r.window)| < r.limit
  }

  /** The list kept for a key after a call at `now`: an accepted call drops what is older than `span`. */
  function Consumed(times: seq<int>, rules: seq<Rule>, span: nat, now: int): seq<int> {
    if Allows(times, rules, now) then After(times, now - span) + [now] else times
  }

  const DAY: nat := 86_400_000
  const MINUTE: nat := 60_000
  const BURST: nat := 10_000

  function AiRules(minuteLimit: int, dailyLimit: int, burstLimit: int): seq<Rule> {
    [Rule(MINUTE, minuteLimit), Rule(DAY, dailyLimit), Rule(BURST, burstLimit)]
  }

  datatype AiLimitKey = AiLimitKey(companyId: string, userId: string, provider: string, requestType: string)

  function Listed<K>(entries: map<K, seq<int>>, key: K): seq<int> {
    if key in entries then entries[key] else []
  }

  /** `list.filter((timestamp) => timestamp > cutoff)`. */
  method Retain(times: seq<int>, cutoff: int) returns (kept: seq<int>)
    ensures kept == After(times, cutoff)
  {
    kept := [];
    for i := 0 to |times|
      invariant kept + After(times[i..], cutoff) == After(times, cutoff)
    {
      assert times[i..][1..] == times[i + 1..];
      if times[i] > cutoff {
        kept := kept + [times[i]];
      }
    }
    assert times[|times|..] == [];
  }

  lemma {:induction false} AfterAfter(times: seq<int>, early: int, late: int)
    requires early <= late
    ensures After(After(times, early), late) == After(times, late)
  {
    if times != [] {
      AfterAfter(times[1..], early, late);
      var rest := After(times[1..], early);
      assert ([times[0]] + rest)[1..] == rest && [] + rest == rest;
    }
  }

  lemma {:induction false} AfterAppend(times: seq<int>, t: int, cutoff: int)
    ensures After(times + [t], cutoff) == After(times, cutoff) + if t > cutoff then [t] else []
  {
    if times == [] {
      assert [t][1..] == [];
    } else {
      AfterAppend(times[1..], t, cutoff);
      assert (times + [t])[1..] == times[1..] + [t];
    }
  }

  lemma AiAllows(times: seq<int>, minuteLimit: int, dailyLimit: int, burstLimit: int, now: int)
    ensures Allows(times, AiRules(minuteLimit, dailyLimit, burstLimit), now) <==>
            |After(times, now - MINUTE)| < minuteLimit && |After(times, now - DAY)| < dailyLimit && |After(times, now - BURST)| < burstLimit
  {
    var rules := AiRules(minuteLimit, dailyLimit, burstLimit);
    assert rules[0] in rules && rules[1] in rules && rules[2] in rules;
  }

  class MemoryAiRateLimiter {
    var entries: map<AiLimitKey, seq<int>>

    constructor ()
      ensures entries == map[]
    {
      entries := map[];
    }

    method Consume(key: AiLimitKey, minuteLimit: int, dailyLimit: int, burstLimit: int, now: int) returns (allowed: bool)
      modifies this
      ensures allowed == Allows(Listed(old(entries), key), AiRules(minuteLimit, dailyLimit, burstLimit), now)
      ensures allowed ==>
                entries == old(entries)[key := Consumed(Listed(old(entries), key), AiRules(minuteLimit, dailyLimit, burstLimit), DAY, now)]
      ensures !allowed ==> entries == old(entries)
    {
      var times := Listed(entries, key);
      var retained := Retain(times, now - DAY);
      var minuteCalls := Retain(retained, now - MINUTE);
      var burstCalls := Retain(retained, now - BURST);
      AfterAfter(times, now - DAY, now - MINUTE);
      AfterAfter(times, now - DAY, now - BURST);
      AiAllows(times, minuteLimit, dailyLimit, burstLimit, now);
      if |minuteCalls| >= minuteLimit || |retained| >= dailyLimit || |burstCalls| >= burstLimit {
        return false;
      }
      entries := entries[key := retained + [now]];
      return true;
    }
  }

  datatype IdentityLimitKey = IdentityLimitKey(scope: string, subject: string)

  datatype IdentityLimitError = InvalidConfiguration

  class MemoryIdentityRateLimiter {
    var entries: map<IdentityLimitKey, seq<int>>

    constructor ()
      ensures entries == map[]
    {
      entries := map[];
    }

    method Consume(key: IdentityLimitKey, limit: int, windowSeconds: int, now: int) returns (r: Result<bool, IdentityLimitError>)
      modifies this
      ensures r.Err? <==> limit < 1 || windowSeconds < 1 || windowSeconds > 86_400
      ensures r.Ok? ==>
                var rules := [Rule(windowSeconds * 1000, limit)];
                r.value == Allows(Listed(old(entries), key), rules, now) &&
                (r.value ==> entries == old(entries)[key := Consumed(Listed(old(entries), key), rules, windowSeconds * 1000, now)])
      ensures r != Ok(true) ==> entries == old(entries)
    {
      if limit < 1 || windowSeconds < 1 || windowSeconds > 86_400 {
        return Err(InvalidConfiguration);
      }
      ghost var rules := [Rule(windowSeconds * 1000, limit)];
      assert rules[0] in rules;
      var retained := Retain(Listed(entries, key), now - windowSeconds * 1000);
      if |retained| >= limit {
        return Ok(false);
      }
      entries := entries[key := retained + [now]];
      return Ok(true);
    }
  }

  // ----- pruning does not change a decision -----

  /** The calls on one key, in order; the list the limiter keeps after them. */
  function Kept(rules: seq<Rule>, span: nat, calls: seq<int>): seq<int> {
    if calls == [] then [] else Consumed(Kept(rules, span, calls[..|calls| - 1]), rules, span, calls[|calls| - 1])
  }

  /** The times of all accepted calls when every decision looks at the whole history. */
  function History(rules: seq<Rule>, calls: seq<int>): seq<int> {
    if calls == [] then []
    else
      var before := History(rules, calls[..|calls| - 1]);
      var now := calls[|calls| - 1];
      if Allows(before, rules, now) then before + [now] else before
  }

  predicate NonDecreasing(calls: seq<int>) {
    forall i, j :: 0 <= i < j < |calls| ==> calls[i] <= calls[j]
  }

  /** The pruned list answers every question about a recent cutoff as the history does. */
  ghost predicate Agrees(kept: seq<int>, history: seq<int>, oldest: int) {
    forall cutoff :: cutoff >= oldest ==> After(kept, cutoff) == After(history, cutoff)
  }

  lemma AgreesAllows(kept: seq<int>, history: seq<int>, rules: seq<Rule>, span: nat, now: int)
    requires Agrees(kept, history, now - span) && forall r :: r in rules ==> r.window <= span
    ensures Allows(kept, rules, now) <==> Allows(history, rules, now)
  {
    forall r | r in rules
      ensures After(kept, now - r.window) == After(history, now - r.window)
    {
    }
  }

  lemma AgreesConsumed(kept: seq<int>, history: seq<int>, now: int, span: nat)
    requires Agrees(kept, history, now - span)
    ensures Agrees(After(kept, now - span) + [now], history + [now], now - span)
  {
    forall cutoff | cutoff >= now - span
      ensures After(After(kept, now - span) + [now], cutoff) == After(history + [now], cutoff)
    {
      AfterAppend(After(kept, now - span), now, cutoff);
      AfterAppend(history, now, cutoff);
      AfterAfter(kept, now - span, cutoff);
    }
  }

  lemma NonDecreasingPrefix(calls: seq<int>, now: int)
    requires NonDecreasing(calls + [now])
    ensures NonDecreasing(calls) && forall t :: t in calls ==> t <= now
  {
    var all := calls + [now];
    forall i, j | 0 <= i < j < |calls|
      ensures calls[i] <= calls[j]
    {
      assert all[i] <= all[j];
    }
    forall t | t in calls
      ensures t <= now
    {
      var i :| 0 <= i < |calls| && calls[i] == t;
      assert all[i] <= all[|calls|];
    }
  }

  /** With a non-decreasing clock and fixed limits, the pruned list decides every call as the full history would. */
  lemma {:induction false} PrunedDecidesAsHistory(rules: seq<Rule>, span: nat, calls: seq<int>, now: int)
    requires forall r :: r in rules ==> r.window <= span
    requires NonDecreasing(calls + [now])
    ensures Agrees(Kept(rules, span, calls), History(rules, calls), now - span)
    ensures Allows(Kept(rules, span, calls), rules, now) <==> Allows(History(rules, calls), rules, now)
    decreases |calls|
  {
    if calls != [] {
      var earlier, last := calls[..|calls| - 1], calls[|calls| - 1];
      NonDecreasingPrefix(calls, now);
      assert earlier + [last] == calls && last in calls;
      PrunedDecidesAsHistory(rules, span, earlier, last);
      AgreesConsumed(Kept(rules, span, earlier), History(rules, earlier), last, span);
    }
    AgreesAllows(Kept(rules, span, calls), History(rules, calls), rules, span, now);
  }

  // ----- no window holds more than its limit -----

  /** How many of the times lie in [from, to). */
  function Within(times: seq<int>, from: int, to: int): nat {
    if times == [] then 0
    else (if from <= times[|times| - 1] < to then 1 else 0) + Within(times[..|times| - 1], from, to)
  }

  lemma {:induction false} WithinAfter(times: seq<int>, from: int, to: int, cutoff: int)
    requires cutoff < from
    ensures Within(times, from, to) <= |After(times, cutoff)|
  {
    if times != [] {
      WithinAfter(times[..|times| - 1], from, to, cutoff);
      AfterAppend(times[..|times| - 1], times[|times| - 1], cutoff);
      assert times == times[..|times| - 1] + [times[|times| - 1]];
    }
  }

  /** Any window of a rule's length, wherever it lies, holds at most its limit of accepted calls. */
  lemma {:induction false} WindowsHoldLimit(rules: seq<Rule>, calls: seq<int>, r: Rule, from: int)
    requires r in rules && r.limit >= 0
    ensures Within(History(rules, calls), from, from + r.window) <= r.limit
  {
    if calls != [] {
      var before := History(rules, calls[..|calls| - 1]);
      var now := calls[|calls| - 1];
      WindowsHoldLimit(rules, calls[..|calls| - 1], r, from);
      if Allows(before, rules, now) {
        assert (before + [now])[..|before|] == before;
        if from <= now < from + r.window {
          WithinAfter(before, from, from + r.window, now - r.window);
        }
      }
    }
  }

  // ----- one clock minute at a time -----

  datatype MinuteUsage = MinuteUsage(minute: int, count: nat)

  function MinuteOf(now: int): int {
    now / 60_000
  }

  /** `None` is the thrown ApiRateLimitError, which leaves the entry as it was. */
  function MinuteConsumed(current: Option<MinuteUsage>, maximum: int, now: int): Option<MinuteUsage> {
    var minute := MinuteOf(now);
    if current.Some? && current.value.minute == minute then
      if current.value.count >= maximum then None else Some(MinuteUsage(minute, current.value.count + 1))
    else Some(MinuteUsage(minute, 1))
  }

  class ApiRateLimiter {
    var usage: map<(string, string), MinuteUsage>

    constructor ()
      ensures usage == map[]
    {
      usage := map[];
    }

    method AssertApiRateLimit(companyId: string, userId: string, maximumPerMinute: int, now: int) returns (allowed: bool)
      modifies this
      ensures var key := (companyId, userId);
              var current := if key in old(usage) then Some(old(usage)[key]) else None;
              match MinuteConsumed(current, maximumPerMinute, now)
              case None => !allowed && usage == old(usage)
              case Some(u) => allowed && usage == old(usage)[key := u]
    {
      var minute := now / 60_000;
      var key := (companyId, userId);
      if key in usage && usage[key].minute == minute && usage[key].count >= maximumPerMinute {
        return false;
      }
      usage := usage[key := MinuteUsage(minute, if key in usage && usage[key].minute == minute then usage[key].count + 1 else 1)];
      return true;
    }
  }

  /** One key's entry and the times of its accepted calls. */
  datatype MinuteState = MinuteState(entry: Option<MinuteUsage>, accepted: seq<int>)

  function Fed(s: MinuteState, maximum: int, now: int): MinuteState {
    var next := MinuteConsumed(s.entry, maximum, now);
    if next.None? then s else MinuteState(next, s.accepted + [now])
  }

  function MinuteRun(maximum: int, calls: seq<int>): MinuteState {
    if calls == [] then MinuteState(None, [])
    else Fed(MinuteRun(maximum, calls[..|calls| - 1]), maximum, calls[|calls| - 1])
  }

  function AtLeastOne(maximum: int): nat {
    if maximum < 1 then 1 else maximum
  }

  lemma {:induction false} WithinLate(times: seq<int>, m: int)
    requires forall t :: t in times ==> MinuteOf(t) < m
    ensures Within(times, m * 60_000, (m + 1) * 60_000) == 0
  {
    if times != [] {
      var earlier, last := times[..|times| - 1], times[|times| - 1];
      assert last in times;
      forall t | t in earlier
        ensures MinuteOf(t) < m
      {
        assert t in times;
      }
      WithinLate(earlier, m);
    }
  }

  predicate EntryOk(s: MinuteState, maximum: int, calls: seq<int>, m: int)
    requires s.entry.Some?
  {
    calls != [] && s.entry.value.minute <= MinuteOf(calls[|calls| - 1]) && s.entry.value.count <= AtLeastOne(maximum) &&
    (forall t :: t in s.accepted ==> MinuteOf(t) <= s.entry.value.minute) &&
    (m == s.entry.value.minute ==> Within(s.accepted, m * 60_000, (m + 1) * 60_000) == s.entry.value.count)
  }

  /** The entry counts the accepted calls of its minute, and no minute has more than its share. */
  lemma {:induction false} MinuteCounts(maximum: int, calls: seq<int>, m: int)
    requires NonDecreasing(calls)
    ensures var s := MinuteRun(maximum, calls);
            (forall t :: t in s.accepted ==> calls != [] && t <= calls[|calls| - 1]) &&
            (s.entry.None? ==> s.accepted == []) &&
            (s.entry.Some? ==> EntryOk(s, maximum, calls, m)) &&
            Within(s.accepted, m * 60_000, (m + 1) * 60_000) <= AtLeastOne(maximum)
  {
    if calls != [] {
      var earlier, now := calls[..|calls| - 1], calls[|calls| - 1];
      MinuteCounts(maximum, earlier, m);
      var before := MinuteRun(maximum, earlier);
      var next := MinuteConsumed(before.entry, maximum, now);
      if next.Some? {
        assert (before.accepted + [now])[..|before.accepted|] == before.accepted;
        if m == MinuteOf(now) && !(before.entry.Some? && before.entry.value.minute == m) {
          WithinLate(before.accepted, m);
        }
      }
    }
  }

  lemma {:induction false} WithinSplit(times: seq<int>, from: int, mid: int, to: int, low: int, high: int)
    requires low <= from <= mid <= to <= high
    ensures Within(times, from, to) <= Within(times, low, mid) + Within(times, mid, high)
  {
    if times != [] {
      WithinSplit(times[..|times| - 1], from, mid, to, low, high);
    }
  }

  /** The fixed-minute limiter admits at most twice its limit in any sixty seconds; a limit below one counts as one. */
  lemma AnyMinuteHoldsTwice(maximum: int, calls: seq<int>, from: int)
    requires NonDecreasing(calls)
    ensures Within(MinuteRun(maximum, calls).accepted, from, from + 60_000) <= 2 * AtLeastOne(maximum)
  {
    var m := MinuteOf(from);
    MinuteCounts(maximum, calls, m);
    MinuteCounts(maximum, calls, m + 1);
    WithinSplit(MinuteRun(maximum, calls).accepted, from, (m + 1) * 60_000, from + 60_000, m * 60_000, (m + 2) * 60_000);
  }

  /** n calls at the same instant. */
  function Repeated(now: int, n: nat): seq<int> {
    if n == 0 then [] else Repeated(now, n - 1) + [now]
  }

  lemma OneMore(maximum: int, calls: seq<int>, now: int)
    ensures MinuteRun(maximum, calls + [now]) == Fed(MinuteRun(maximum, calls), maximum, now)
  {
    assert (calls + [now])[..|calls|] == calls;
  }

  /** The state after n accepted calls at `now`, in a minute without earlier ones. */
  function AfterRepeated(s: MinuteState, now: int, n: nat): MinuteState {
    MinuteState(if n == 0 then s.entry else Some(MinuteUsage(MinuteOf(now), n)), s.accepted + Repeated(now, n))
  }

  lemma FedAgain(s: MinuteState, maximum: int, now: int, n: nat)
    requires n < AtLeastOne(maximum) && (s.entry.None? || s.entry.value.minute != MinuteOf(now))
    ensures Fed(AfterRepeated(s, now, n), maximum, now) == AfterRepeated(s, now, n + 1)
  {
    assert s.accepted + Repeated(now, n + 1) == s.accepted + Repeated(now, n) + [now];
  }

  /** The state after feeding n calls at `now`. */
  function FedTimes(s: MinuteState, maximum: int, now: int, n: nat): MinuteState {
    if n == 0 then s else Fed(FedTimes(s, maximum, now, n - 1), maximum, now)
  }

  lemma RepeatedOnceMore(maximum: int, before: seq<int>, now: int, n: nat)
    ensures MinuteRun(maximum, before + Repeated(now, n + 1)) == Fed(MinuteRun(maximum, before + Repeated(now, n)), maximum, now)
  {
    var calls := before + Repeated(now, n);
    OneMore(maximum, calls, now);
    assert before + Repeated(now, n + 1) == calls + [now];
  }

  lemma {:induction false} RunRepeated(maximum: int, before: seq<int>, now: int, n: nat)
    ensures MinuteRun(maximum, before + Repeated(now, n)) == FedTimes(MinuteRun(maximum, before), maximum, now, n)
  {
    if n == 0 {
      assert before + Repeated(now, 0) == before;
    } else {
      RunRepeated(maximum, before, now, n - 1);
      RepeatedOnceMore(maximum, before, now, n - 1);
    }
  }

  lemma {:induction false} RepeatedAccepted(s: MinuteState, maximum: int, now: int, n: nat)
    requires n <= AtLeastOne(maximum) && (s.entry.None? || s.entry.value.minute != MinuteOf(now))
    ensures FedTimes(s, maximum, now, n) == AfterRepeated(s, now, n)
  {
    if n == 0 {
      assert s.accepted + Repeated(now, 0) == s.accepted;
    } else {
      RepeatedAccepted(s, maximum, now, n - 1);
      FedAgain(s, maximum, now, n - 1);
    }
  }

  lemma {:induction false} WithinRepeated(times: seq<int>, now: int, n: nat, from: int, to: int)
    requires from <= now < to
    ensures Within(times + Repeated(now, n), from, to) == Within(times, from, to) + n
  {
    if n == 0 {
      assert times + [] == times;
    } else {
      WithinRepeated(times, now, n - 1, from, to);
      var all := times + Repeated(now, n);
      assert all[..|all| - 1] == times + Repeated(now, n - 1) && all[|all| - 1] == now;
    }
  }

  lemma {:induction false} RepeatedEntries(now: int, n: nat)
    ensures |Repeated(now, n)| == n && forall k :: 0 <= k < n ==> Repeated(now, n)[k] == now
  {
    if n > 0 {
      RepeatedEntries(now, n - 1);
    }
  }

  lemma BurstsInOrder(n: nat)
    ensures NonDecreasing(Repeated(59_999, n) + Repeated(60_000, n))
  {
    RepeatedEntries(59_999, n);
    RepeatedEntries(60_000, n);
  }

  lemma BurstsCounted(n: nat)
    ensures Within([] + Repeated(59_999, n) + Repeated(60_000, n), 1, 60_001) == 2 * n
  {
    WithinRepeated([], 59_999, n, 1, 60_001);
    WithinRepeated([] + Repeated(59_999, n), 60_000, n, 1, 60_001);
  }

  lemma BurstsAccepted(maximum: int, n: nat)
    requires n == AtLeastOne(maximum)
    ensures MinuteRun(maximum, Repeated(59_999, n) + Repeated(60_000, n)).accepted == [] + Repeated(59_999, n) + Repeated(60_000, n)
  {
    var first := Repeated(59_999, n);
    assert [] + first == first;
    RunRepeated(maximum, [], 59_999, n);
    RepeatedAccepted(MinuteRun(maximum, []), maximum, 59_999, n);
    RunRepeated(maximum, first, 60_000, n);
    RepeatedAccepted(MinuteRun(maximum, first), maximum, 60_000, n);
  }

  /** And for every limit the bound is reached: a full minute's worth on each side of a minute boundary. */
  lemma TwiceIsReached(maximum: int)
    ensures var calls := Repeated(59_999, AtLeastOne(maximum)) + Repeated(60_000, AtLeastOne(maximum));
            NonDecreasing(calls) && Within(MinuteRun(maximum, calls).accepted, 1, 60_001) == 2 * AtLeastOne(maximum)
  {
    BurstsInOrder(AtLeastOne(maximum));
    BurstsAccepted(maximum, AtLeastOne(maximum));
    BurstsCounted(AtLeastOne(maximum));
  }
}
