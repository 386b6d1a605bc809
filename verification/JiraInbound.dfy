/** Inbound Jira events, which arrive in any order and may repeat; each is processed in one transaction. */
module JiraInbound {
  import opened Wrappers

  // A status event moves a request unless it is stale or would reopen it; a comment event writes a message
  // unless the stored one is at least as new.

  datatype PortalStatus = New | Open | InProgress | WaitingCustomer | Resolved | Closed

  predicate Terminal(s: PortalStatus) {
    s == Resolved || s == Closed
  }

  // ----- resolving a status name -----

  /** What an organisation maps names to; `None` is a value that is no portal status. */
  type Mapping = seq<(string, Option<PortalStatus>)>

  function LastMapped(entries: Mapping, name: string, normal: string -> string): Option<PortalStatus> {
    if entries == [] then None
    else
      var (key, status) := entries[|entries| - 1];
      if status.Some? && normal(key) == name then status else LastMapped(entries[..|entries| - 1], name, normal)
  }

  /** Entry i maps the name to a portal status. */
  predicate Maps(entries: Mapping, i: nat, name: string, normal: string -> string) {
    i < |entries| && entries[i].1.Some? && normal(entries[i].0) == name
  }

  lemma {:induction false} LastEntryWins(entries: Mapping, name: string, normal: string -> string)
    ensures LastMapped(entries, name, normal).None? <==> forall i: nat :: !Maps(entries, i, name, normal)
    ensures forall i: nat :: Maps(entries, i, name, normal) && (forall j: nat :: j > i ==> !Maps(entries, j, name, normal)) ==>
              LastMapped(entries, name, normal) == entries[i].1
  {
    if entries != [] {
      var n := |entries| - 1;
      LastEntryWins(entries[..n], name, normal);
      assert forall i: nat :: Maps(entries[..n], i, name, normal) <==> i < n && Maps(entries, i, name, normal);
      if entries[n].1.Some? && normal(entries[n].0) == name {
        assert Maps(entries, n, name, normal);
      }
    }
  }

  const DEFAULTS: map<string, PortalStatus> :=
    map["to do" := Open, "todo" := Open, "open" := Open, "new" := Open, "in progress" := InProgress,
        "waiting for customer" := WaitingCustomer, "waiting customer" := WaitingCustomer,
        "resolved" := Resolved, "done" := Resolved, "closed" := Closed]

  /** The organisation's last entry for the name, then the default one. */
  function Resolution(statusName: string, entries: Mapping, normal: string -> string): Option<PortalStatus> {
    var custom := LastMapped(entries, normal(statusName), normal);
    if custom.Some? then custom
    else if normal(statusName) in DEFAULTS then Some(DEFAULTS[normal(statusName)])
    else None
  }

  /** `normal` is trimming and lower-casing. */
  method ResolveJiraStatus(statusName: string, entries: Mapping, normal: string -> string) returns (r: Option<PortalStatus>)
    ensures r == Resolution(statusName, entries, normal)
    ensures forall i: nat :: Maps(entries, i, normal(statusName), normal) && (forall j: nat :: j > i ==> !Maps(entries, j, normal(statusName), normal)) ==>
              r == entries[i].1
    ensures (forall i: nat :: !Maps(entries, i, normal(statusName), normal)) ==>
              r == if normal(statusName) in DEFAULTS then Some(DEFAULTS[normal(statusName)]) else None
  {
    LastEntryWins(entries, normal(statusName), normal);
    var custom: map<string, PortalStatus> := map[];
    for i := 0 to |entries|
      invariant forall name :: LastMapped(entries[..i], name, normal) == if name in custom then Some(custom[name]) else None
    {
      var (key, status) := entries[i];
      assert entries[..i + 1][..i] == entries[..i];
      if status.Some? {
        custom := custom[normal(key) := status.value];
      }
    }
    assert entries[..|entries|] == entries;
    var name := normal(statusName);
    r := if name in custom then Some(custom[name]) else if name in DEFAULTS then Some(DEFAULTS[name]) else None;
  }

  // ----- status events -----

  datatype Decision = Stale | TerminalConflict | Unchanged | Apply

  function StatusTransitionDecision(current: PortalStatus, currentAt: Option<int>, incoming: PortalStatus, incomingAt: int): Decision {
    if currentAt.Some? && incomingAt <= currentAt.value then Stale
    else if Terminal(current) && !Terminal(incoming) then TerminalConflict
    else if current == incoming then Unchanged
    else Apply
  }

  /** The event's status name resolved under the organisation's mapping; `None` is an unknown name. */
  datatype StatusEvent = StatusEvent(statusId: string, statusName: string, mapped: Option<PortalStatus>, at: int)

  datatype Request = Request(status: PortalStatus, jiraStatusId: string, jiraStatusName: string, jiraUpdatedAt: Option<int>, syncVersion: nat)

  function Written(r: Request, e: StatusEvent, decision: Decision): Request
    requires e.mapped.Some?
  {
    Request(if decision == Apply then e.mapped.value else r.status, e.statusId, e.statusName, Some(e.at), r.syncVersion + 1)
  }

  /** The condition of the guarded update. */
  predicate Newer(r: Request, at: int) {
    r.jiraUpdatedAt.None? || r.jiraUpdatedAt.value < at
  }

  /** One whole transaction. */
  function ProcessStatus(r: Request, e: StatusEvent): Request {
    if e.mapped.None? then r
    else
      var decision := StatusTransitionDecision(r.status, r.jiraUpdatedAt, e.mapped.value, e.at);
      if decision == Stale || decision == TerminalConflict then r
      else if Newer(r, e.at) then Written(r, e, decision)
      else r
  }

  function ProcessAll(r: Request, events: seq<StatusEvent>): Request {
    if events == [] then r else ProcessStatus(ProcessAll(r, events[..|events| - 1]), events[|events| - 1])
  }

  /** What the portal shows, without the counters. */
  predicate SameRegister(a: Request, b: Request) {
    a.status == b.status && a.jiraStatusId == b.jiraStatusId && a.jiraStatusName == b.jiraStatusName && a.jiraUpdatedAt == b.jiraUpdatedAt
  }

  /** Once at the level of `at`, or terminal against a non-terminal event, the event is a no-op for good. */
  predicate Spent(r: Request, e: StatusEvent) {
    e.mapped.None? || !Newer(r, e.at) || (Terminal(r.status) && !Terminal(e.mapped.value))
  }

  lemma ProcessedIsSpent(r: Request, e: StatusEvent)
    ensures Spent(ProcessStatus(r, e), e)
  {
  }

  lemma {:induction false} SpentStays(r: Request, e: StatusEvent, later: seq<StatusEvent>)
    requires Spent(r, e)
    ensures Spent(ProcessAll(r, later), e)
  {
    if later != [] {
      SpentStays(r, e, later[..|later| - 1]);
    }
  }

  /** Redelivering a processed event, at any later time, changes nothing. */
  lemma RedeliveryChangesNothing(r: Request, e: StatusEvent, later: seq<StatusEvent>)
    ensures var now := ProcessAll(ProcessStatus(r, e), later); ProcessStatus(now, e) == now
  {
    ProcessedIsSpent(r, e);
    SpentStays(ProcessStatus(r, e), e, later);
  }

  /** jiraUpdatedAt rises strictly with every change, and a resolved or closed request is never reopened. */
  lemma {:induction false} StatusNeverGoesBack(r: Request, events: seq<StatusEvent>)
    ensures var s := ProcessAll(r, events);
            (s == r || (s.jiraUpdatedAt.Some? && Newer(r, s.jiraUpdatedAt.value) && s.syncVersion > r.syncVersion)) &&
            (Terminal(r.status) ==> Terminal(s.status))
  {
    if events != [] {
      StatusNeverGoesBack(r, events[..|events| - 1]);
    }
  }

  /**
   * Which events count: a known status, newer than the last one taken, and none that would open a resolved or
   * closed request again.  Such an event is shown in full, and any other changes nothing.
   */
  lemma EventIsTakenIff(r: Request, e: StatusEvent)
    ensures var s := ProcessStatus(r, e);
            if e.mapped.None? || (r.jiraUpdatedAt.Some? && e.at <= r.jiraUpdatedAt.value) ||
               (r.status in {Resolved, Closed} && e.mapped.value !in {Resolved, Closed}) then s == r
            else s == Request(e.mapped.value, e.statusId, e.statusName, Some(e.at), r.syncVersion + 1)
  {
  }

  /** Once resolved or closed, whatever events come. */
  lemma {:induction false} ClosedStaysClosed(r: Request, events: seq<StatusEvent>)
    requires r.status in {Resolved, Closed}
    ensures ProcessAll(r, events).status in {Resolved, Closed}
  {
    if events != [] {
      ClosedStaysClosed(r, events[..|events| - 1]);
      EventIsTakenIff(ProcessAll(r, events[..|events| - 1]), events[|events| - 1]);
    }
  }

  // ----- when the order of status events does not matter -----

  function Elements<T>(s: seq<T>): set<T> {
    set e | e in s
  }

  predicate IsTerminalEvent(e: StatusEvent) {
    e.mapped.Some? && Terminal(e.mapped.value)
  }

  /** However often and in whatever order the events are processed, the portal shows the same. */
  ghost predicate OrderIndependent(r: Request, events: set<StatusEvent>) {
    forall a, b :: Elements(a) == events && Elements(b) == events ==> SameRegister(ProcessAll(r, a), ProcessAll(r, b))
  }

  /** r shows what event e left. */
  predicate Shows(r: Request, e: StatusEvent) {
    e.mapped == Some(r.status) && r.jiraStatusId == e.statusId && r.jiraStatusName == e.statusName && r.jiraUpdatedAt == Some(e.at)
  }

  predicate SameShown(e: StatusEvent, f: StatusEvent) {
    e.mapped == f.mapped && e.statusId == f.statusId && e.statusName == f.statusName && e.at == f.at
  }

  /** z is latest among the events that the request would take. */
  predicate LatestTaken(r: Request, events: set<StatusEvent>, z: StatusEvent) {
    z in events && !Spent(r, z) && forall e :: e in events && !Spent(r, e) ==> e.at <= z.at
  }

  predicate LatestAgree(r: Request, events: set<StatusEvent>, z: StatusEvent) {
    forall e :: e in events && !Spent(r, e) && e.at == z.at ==> SameShown(e, z)
  }

  /** z is terminal, or no event the request would take is. */
  predicate TerminalLast(r: Request, events: set<StatusEvent>, z: StatusEvent) {
    IsTerminalEvent(z) || forall e :: e in events && !Spent(r, e) ==> !IsTerminalEvent(e)
  }

  lemma PrefixElements<T>(a: seq<T>)
    requires a != []
    ensures Elements(a) == Elements(a[..|a| - 1]) + {a[|a| - 1]}
  {
    assert a == a[..|a| - 1] + [a[|a| - 1]];
  }

  lemma {:induction false} SpentAreIdle(r: Request, a: seq<StatusEvent>)
    requires forall e :: e in a ==> Spent(r, e)
    ensures ProcessAll(r, a) == r
  {
    if a != [] {
      SpentAreIdle(r, a[..|a| - 1]);
      assert a[|a| - 1] in a;
    }
  }

  /** What is shown once an event of the latest time has had its turn, and what is certain before. */
  predicate Progress(s: Request, z: StatusEvent, reached: bool) {
    if reached then Shows(s, z) else Newer(s, z.at) && (IsTerminalEvent(z) || !Terminal(s.status))
  }

  lemma OneMoreEvent(r: Request, events: set<StatusEvent>, z: StatusEvent, s: Request, e: StatusEvent, reached: bool)
    requires LatestTaken(r, events, z) && LatestAgree(r, events, z) && TerminalLast(r, events, z) && e in events
    requires Progress(s, z, reached) && (Spent(r, e) ==> Spent(s, e))
    ensures Progress(ProcessStatus(s, e), z, reached || (!Spent(r, e) && e.at == z.at))
  {
  }

  predicate Reached(r: Request, z: StatusEvent, a: seq<StatusEvent>) {
    exists e :: e in a && !Spent(r, e) && e.at == z.at
  }

  lemma {:induction false} LatestIsShown(r: Request, events: set<StatusEvent>, z: StatusEvent, a: seq<StatusEvent>)
    requires LatestTaken(r, events, z) && LatestAgree(r, events, z) && TerminalLast(r, events, z) && Elements(a) <= events
    ensures Progress(ProcessAll(r, a), z, Reached(r, z, a))
  {
    if a != [] {
      var before, e := a[..|a| - 1], a[|a| - 1];
      PrefixElements(a);
      LatestIsShown(r, events, z, before);
      assert e in Elements(a);
      if Spent(r, e) { SpentStays(r, e, before); }
      OneMoreEvent(r, events, z, ProcessAll(r, before), e, Reached(r, z, before));
      forall x ensures x in a <==> x in before || x == e {
        assert x in Elements(a) <==> x in Elements(before) + {e};
      }
    }
  }

  lemma ProcessFirst(r: Request, e: StatusEvent, a: seq<StatusEvent>)
    ensures ProcessAll(r, [e] + a) == ProcessAll(ProcessStatus(r, e), a)
  {
    if a == [] {
      assert [e] + a == [e] && [e][..0] == [];
      assert ProcessAll(r, []) == r;
    } else {
      ProcessFirst(r, e, a[..|a| - 1]);
      assert ([e] + a)[..|a|] == [e] + a[..|a| - 1];
    }
  }

  /** An event of the latest time that comes first makes all others no-ops. */
  lemma FirstOfLatestStays(r: Request, events: set<StatusEvent>, z: StatusEvent, y: StatusEvent, all: seq<StatusEvent>)
    requires LatestTaken(r, events, z) && y in events && !Spent(r, y) && y.at == z.at && Elements(all) == events
    ensures Elements([y] + all) == events && Shows(ProcessAll(r, [y] + all), y)
  {
    assert Elements([y] + all) == {y} + Elements(all);
    ProcessFirst(r, y, all);
    forall e | e in all
      ensures Spent(ProcessStatus(r, y), e)
    {
      assert e in Elements(all);
      if Spent(r, e) {
        SpentStays(r, e, [y]);
        assert [y][..0] == [] && ProcessAll(r, []) == r;
      }
    }
    SpentAreIdle(ProcessStatus(r, y), all);
  }

  /** A terminal event that comes first keeps the request terminal. */
  lemma TerminalFirstStays(r: Request, events: set<StatusEvent>, t: StatusEvent, all: seq<StatusEvent>)
    requires t in events && !Spent(r, t) && IsTerminalEvent(t) && Elements(all) == events
    ensures Elements([t] + all) == events && Terminal(ProcessAll(r, [t] + all).status)
  {
    assert Elements([t] + all) == {t} + Elements(all);
    ProcessFirst(r, t, all);
    StatusNeverGoesBack(ProcessStatus(r, t), all);
  }

  /**
   * Any events at all: unknown, stale, tied or repeated.  They are order-independent if and only if,
   * among those the request would take, the latest ones agree, and they are terminal or none is.
   */
  lemma OrderIndependentIff(r: Request, events: set<StatusEvent>, all: seq<StatusEvent>, z: StatusEvent)
    requires Elements(all) == events && LatestTaken(r, events, z)
    ensures OrderIndependent(r, events) <==> LatestAgree(r, events, z) && TerminalLast(r, events, z)
  {
    FirstOfLatestStays(r, events, z, z, all);
    if !LatestAgree(r, events, z) {
      var y :| y in events && !Spent(r, y) && y.at == z.at && !SameShown(y, z);
      FirstOfLatestStays(r, events, z, y, all);
      assert !SameRegister(ProcessAll(r, [y] + all), ProcessAll(r, [z] + all));
    } else if !TerminalLast(r, events, z) {
      var t :| t in events && !Spent(r, t) && IsTerminalEvent(t);
      TerminalFirstStays(r, events, t, all);
      assert !SameRegister(ProcessAll(r, [t] + all), ProcessAll(r, [z] + all));
    } else {
      forall a | Elements(a) == events
        ensures Shows(ProcessAll(r, a), z)
      {
        LatestIsShown(r, events, z, a);
        assert z in Elements(a);
      }
    }
  }

  /** And if the request would take none of them, they change nothing. */
  lemma NothingTaken(r: Request, a: seq<StatusEvent>)
    requires forall e :: e in a ==> Spent(r, e)
    ensures ProcessAll(r, a) == r && OrderIndependent(r, Elements(a))
  {
    forall b | Elements(b) == Elements(a)
      ensures ProcessAll(r, b) == r
    {
      forall e | e in b ensures Spent(r, e) { assert e in Elements(b); }
      SpentAreIdle(r, b);
    }
  }

  // ----- status transactions that read before others write -----

  /** Reading and writing as separate steps, as at the default isolation level. */
  function WriteAfterRead(r: Request, read: Request, e: StatusEvent): Request {
    if e.mapped.None? then r
    else
      var decision := StatusTransitionDecision(read.status, read.jiraUpdatedAt, e.mapped.value, e.at);
      if decision == Stale || decision == TerminalConflict || !Newer(r, e.at) then r else Written(r, e, decision)
  }

  /** A transaction that nobody interrupts is a whole one. */
  lemma UninterruptedIsWhole(r: Request, e: StatusEvent)
    ensures WriteAfterRead(r, r, e) == ProcessStatus(r, e)
  {
  }

  /** Whoever read the request resolved or closed writes nothing open, whatever it is by now. */
  lemma ReaderOfClosedWritesNothingOpen(r: Request, read: Request, e: StatusEvent)
    requires read.status in {Resolved, Closed} && e.mapped.Some? && e.mapped.value !in {Resolved, Closed}
    ensures WriteAfterRead(r, read, e) == r
  {
  }

  datatype StatusStep = ReadStatus(tx: nat, event: StatusEvent) | WriteStatus(tx: nat)

  /** `resolvedSince`: some write made the request terminal since the transaction read it. */
  datatype StatusReading = StatusReading(read: Request, event: StatusEvent, resolvedSince: bool)

  datatype StatusRace = StatusRace(stored: Request, open: map<nat, StatusReading>)

  function StatusRaceNext(r: StatusRace, step: StatusStep): StatusRace {
    match step
    case ReadStatus(tx, e) => if tx in r.open then r else r.(open := r.open[tx := StatusReading(r.stored, e, false)])
    case WriteStatus(tx) =>
      if tx !in r.open then r
      else
        var after := WriteAfterRead(r.stored, r.open[tx].read, r.open[tx].event);
        var resolves := !Terminal(r.stored.status) && Terminal(after.status);
        StatusRace(after, map k | k in r.open && k != tx :: r.open[k].(resolvedSince := r.open[k].resolvedSince || resolves))
  }

  function StatusRaceRun(r: StatusRace, steps: seq<StatusStep>): StatusRace
    decreases |steps|
  {
    if steps == [] then r else StatusRaceRun(StatusRaceNext(r, steps[0]), steps[1..])
  }

  predicate Reopens(before: Request, after: Request) {
    Terminal(before.status) && !Terminal(after.status)
  }

  predicate SomeReopening(r: StatusRace, steps: seq<StatusStep>)
    decreases |steps|
  {
    steps != [] &&
    (Reopens(r.stored, StatusRaceNext(r, steps[0]).stored) || SomeReopening(StatusRaceNext(r, steps[0]), steps[1..]))
  }

  /**
   * The write of an event that is not terminal, differs from the open status its transaction read, and
   * is newer than the stored request, although the request was resolved since that read.
   */
  predicate OverlooksResolution(r: StatusRace, step: StatusStep) {
    step.WriteStatus? && step.tx in r.open &&
    var t := r.open[step.tx];
    t.resolvedSince && !Terminal(t.read.status) && t.event.mapped.Some? && !Terminal(t.event.mapped.value) &&
    t.event.mapped.value != t.read.status && Newer(r.stored, t.event.at)
  }

  predicate SomeOverlooksResolution(r: StatusRace, steps: seq<StatusStep>)
    decreases |steps|
  {
    steps != [] && (OverlooksResolution(r, steps[0]) || SomeOverlooksResolution(StatusRaceNext(r, steps[0]), steps[1..]))
  }

  /** The stored request is not older than what anyone read. */
  predicate NotOlder(read: Request, stored: Request) {
    read.jiraUpdatedAt.Some? ==> stored.jiraUpdatedAt.Some? && read.jiraUpdatedAt.value <= stored.jiraUpdatedAt.value
  }

  /** While nothing has been reopened, the request is terminal for those who read it open exactly if it was resolved since. */
  predicate StatusRaceOk(r: StatusRace) {
    forall tx :: tx in r.open ==>
      var t := r.open[tx];
      NotOlder(t.read, r.stored) &&
      if Terminal(t.read.status) then Terminal(r.stored.status) else t.resolvedSince == Terminal(r.stored.status)
  }

  lemma ReopensIff(r: StatusRace, step: StatusStep)
    requires StatusRaceOk(r)
    ensures Reopens(r.stored, StatusRaceNext(r, step).stored) <==> OverlooksResolution(r, step)
    ensures !OverlooksResolution(r, step) ==> StatusRaceOk(StatusRaceNext(r, step))
  {
  }

  /**
   * In every interleaving of any number of status transactions: a resolved or closed request is
   * reopened at some point if and only if some write overlooks that it was resolved since its read.
   */
  lemma {:induction false} RequestIsReopenedIff(r: StatusRace, steps: seq<StatusStep>)
    requires StatusRaceOk(r)
    ensures SomeReopening(r, steps) <==> SomeOverlooksResolution(r, steps)
    decreases |steps|
  {
    if steps != [] {
      ReopensIff(r, steps[0]);
      if !OverlooksResolution(r, steps[0]) {
        RequestIsReopenedIff(StatusRaceNext(r, steps[0]), steps[1..]);
      }
    }
  }

  /** In every interleaving, reopening or not, jiraUpdatedAt never goes back. */
  lemma {:induction false} TimeRisesInRaces(r: StatusRace, steps: seq<StatusStep>)
    ensures NotOlder(r.stored, StatusRaceRun(r, steps).stored)
    decreases |steps|
  {
    if steps != [] {
      TimeRisesInRaces(StatusRaceNext(r, steps[0]), steps[1..]);
    }
  }

  /** Such a run exists from every open request: both read, the older event resolves it, the newer one reopens it. */
  lemma ReadsBeforeWritesReopen(r: Request, older: StatusEvent, newer: StatusEvent)
    requires !Terminal(r.status) && Newer(r, older.at) && older.at < newer.at && IsTerminalEvent(older)
    requires newer.mapped.Some? && !IsTerminalEvent(newer) && newer.mapped.value != r.status
    ensures var steps := [ReadStatus(0, older), ReadStatus(1, newer), WriteStatus(0), WriteStatus(1)];
            SomeReopening(StatusRace(r, map[]), steps) &&
            StatusRaceRun(StatusRace(r, map[]), steps).stored.status == newer.mapped.value
  {
    var start := StatusRace(r, map[]);
    var read := StatusRace(r, map[0 := StatusReading(r, older, false), 1 := StatusReading(r, newer, false)]);
    assert StatusRaceNext(StatusRaceNext(start, ReadStatus(0, older)), ReadStatus(1, newer)) == read;
    var resolved := StatusRaceNext(read, WriteStatus(0));
    assert resolved.open == map[1 := StatusReading(r, newer, true)];
    assert OverlooksResolution(resolved, WriteStatus(1));
    var steps := [ReadStatus(0, older), ReadStatus(1, newer), WriteStatus(0), WriteStatus(1)];
    assert steps[1..] == [ReadStatus(1, newer), WriteStatus(0), WriteStatus(1)];
    assert steps[1..][1..] == [WriteStatus(0), WriteStatus(1)];
    assert steps[1..][1..][1..] == [WriteStatus(1)];
    assert steps[1..][1..][1..][1..] == [];
    assert SomeReopening(resolved, [WriteStatus(1)]);
    assert SomeReopening(read, [WriteStatus(0), WriteStatus(1)]);
    assert StatusRaceRun(resolved, [WriteStatus(1)]).stored.status == newer.mapped.value;
    assert StatusRaceRun(read, [WriteStatus(0), WriteStatus(1)]).stored.status == newer.mapped.value;
  }

  // ----- comment events: a last-writer-wins register -----

  datatype CommentEvent = CommentEvent(commentId: string, body: string, authorName: string, public: bool, automation: bool, at: Option<int>)

  datatype Message = Message(requestId: string, fromJira: bool, body: string, authorName: string, updatedAt: Option<int>)

  datatype CommentError = DateInvalid | TenantCollision

  /** `Ok(None)` is an ignored event; otherwise the message stored under the comment's id. */
  function ProcessComment(existing: Option<Message>, requestId: string, e: CommentEvent): Result<Option<Message>, CommentError> {
    if !e.public || e.automation then Ok(None)
    else if e.at.None? then Err(DateInvalid)
    else
      match existing
      case None => Ok(Some(Message(requestId, true, e.body, e.authorName, e.at)))
      case Some(m) =>
        if m.requestId != requestId then Err(TenantCollision)
        else if !m.fromJira then Ok(None)
        else if m.updatedAt.Some? && e.at.value <= m.updatedAt.value then Ok(None)
        else Ok(Some(m.(body := e.body, authorName := e.authorName, updatedAt := e.at)))
  }

  /** What is stored after the transaction; a thrown error rolls it back. */
  function Stored(existing: Option<Message>, requestId: string, e: CommentEvent): Option<Message> {
    match ProcessComment(existing, requestId, e)
    case Ok(Some(m)) => Some(m)
    case _ => existing
  }

  function StoredAll(existing: Option<Message>, requestId: string, events: seq<CommentEvent>): Option<Message> {
    if events == [] then existing else Stored(StoredAll(existing, requestId, events[..|events| - 1]), requestId, events[|events| - 1])
  }

  /** Which comments are refused: one without a date, and one under a message of another request. */
  lemma CommentErrors(existing: Option<Message>, requestId: string, e: CommentEvent)
    ensures ProcessComment(existing, requestId, e) == Err(DateInvalid) <==> e.public && !e.automation && e.at.None?
    ensures ProcessComment(existing, requestId, e) == Err(TenantCollision) <==>
              e.public && !e.automation && e.at.Some? && existing.Some? && existing.value.requestId != requestId
  {
  }

  /** A comment shown for the first time is the request's, from Jira, with the event's text, author and time. */
  lemma FirstComment(requestId: string, e: CommentEvent)
    ensures Stored(None, requestId, e) ==
              if e.public && !e.automation && e.at.Some? then Some(Message(requestId, true, e.body, e.authorName, e.at)) else None
  {
  }

  predicate Eligible(e: CommentEvent) {
    e.public && !e.automation && e.at.Some?
  }

  /** The message may take an eligible event of this time. */
  predicate Accepts(existing: Option<Message>, requestId: string, at: int) {
    existing.None? ||
    (existing.value.requestId == requestId && existing.value.fromJira &&
     (existing.value.updatedAt.None? || existing.value.updatedAt.value < at))
  }

  predicate IsLatest(events: set<CommentEvent>, z: CommentEvent) {
    z in events && Eligible(z) && forall e :: e in events && Eligible(e) ==> e.at.value <= z.at.value
  }

  /** The register holds event z. */
  predicate Carries(m: Option<Message>, requestId: string, z: CommentEvent) {
    m == Some(Message(requestId, true, z.body, z.authorName, z.at))
  }

  /** The first of the latest events to be processed is what the register holds in the end. */
  lemma {:induction false} LatestIsCarried(m: Option<Message>, requestId: string, events: set<CommentEvent>, z: CommentEvent, a: seq<CommentEvent>)
    requires IsLatest(events, z) && Elements(a) <= events && Accepts(m, requestId, z.at.value)
    ensures var s := StoredAll(m, requestId, a);
            (exists x :: x in a && Eligible(x) && x.at == z.at && Carries(s, requestId, x)) ||
            ((forall x :: x in a && Eligible(x) ==> x.at != z.at) && Accepts(s, requestId, z.at.value))
  {
    if a != [] {
      var before, e := a[..|a| - 1], a[|a| - 1];
      PrefixElements(a);
      LatestIsCarried(m, requestId, events, z, before);
      assert e in events && e in a;
      forall x | x in a
        ensures x in before || x == e
      {
        assert x in Elements(before) + {e};
      }
      var s := StoredAll(m, requestId, before);
      if exists x :: x in before && Eligible(x) && x.at == z.at && Carries(s, requestId, x) {
        var x :| x in before && Eligible(x) && x.at == z.at && Carries(s, requestId, x);
        assert StoredAll(m, requestId, a) == s && x in a;
      } else if Eligible(e) && e.at == z.at {
        assert Carries(StoredAll(m, requestId, a), requestId, e);
      }
    }
  }

  /** Latest events that tie carry the same comment. */
  predicate TiesAgree(events: set<CommentEvent>, z: CommentEvent) {
    forall e :: e in events && Eligible(e) && e.at == z.at ==> e.body == z.body && e.authorName == z.authorName
  }

  ghost predicate CommentOrderIndependent(m: Option<Message>, requestId: string, events: set<CommentEvent>) {
    forall a, b :: Elements(a) == events && Elements(b) == events ==> StoredAll(m, requestId, a) == StoredAll(m, requestId, b)
  }

  lemma StoreFirst(m: Option<Message>, requestId: string, e: CommentEvent, a: seq<CommentEvent>)
    ensures StoredAll(m, requestId, [e] + a) == StoredAll(Stored(m, requestId, e), requestId, a)
  {
    if a == [] {
      assert [e] + a == [e] && [e][..0] == [];
      assert StoredAll(m, requestId, []) == m;
    } else {
      StoreFirst(m, requestId, e, a[..|a| - 1]);
      assert ([e] + a)[..|a|] == [e] + a[..|a| - 1];
    }
  }

  lemma {:induction false} CarriedStays(m: Option<Message>, requestId: string, z: CommentEvent, a: seq<CommentEvent>)
    requires Eligible(z) && Carries(m, requestId, z) && forall e :: e in a && Eligible(e) ==> e.at.value <= z.at.value
    ensures StoredAll(m, requestId, a) == m
  {
    if a != [] {
      CarriedStays(m, requestId, z, a[..|a| - 1]);
    }
  }

  lemma LatestWins(m: Option<Message>, requestId: string, events: set<CommentEvent>, z: CommentEvent, a: seq<CommentEvent>)
    requires IsLatest(events, z) && Accepts(m, requestId, z.at.value) && TiesAgree(events, z) && Elements(a) == events
    ensures Carries(StoredAll(m, requestId, a), requestId, z)
  {
    LatestIsCarried(m, requestId, events, z, a);
    assert z in Elements(a);
    assert forall x :: x in a ==> x in Elements(a);
  }

  /** Whichever of two tied events comes first stays. */
  lemma FirstOfTiesStays(m: Option<Message>, requestId: string, events: set<CommentEvent>, y: CommentEvent, all: seq<CommentEvent>)
    requires IsLatest(events, y) && Elements(all) == events && Accepts(m, requestId, y.at.value)
    ensures Elements([y] + all) == events && Carries(StoredAll(m, requestId, [y] + all), requestId, y)
  {
    assert Elements([y] + all) == {y} + Elements(all);
    StoreFirst(m, requestId, y, all);
    assert forall e :: e in all ==> e in Elements(all);
    CarriedStays(Stored(m, requestId, y), requestId, y, all);
  }

  /**
   * Comments form a last-writer-wins register: if the register can take the latest eligible event at
   * all, its final content depends only on the set of events, not on their order or repetition, if
   * and only if events that tie for the latest time agree.
   */
  lemma CommentsLastWriterWinsIff(m: Option<Message>, requestId: string, events: set<CommentEvent>, all: seq<CommentEvent>, z: CommentEvent)
    requires Elements(all) == events && IsLatest(events, z) && Accepts(m, requestId, z.at.value)
    ensures CommentOrderIndependent(m, requestId, events) <==> TiesAgree(events, z)
    ensures TiesAgree(events, z) ==> Carries(StoredAll(m, requestId, all), requestId, z)
  {
    if TiesAgree(events, z) {
      forall a | Elements(a) == events
        ensures Carries(StoredAll(m, requestId, a), requestId, z)
      {
        LatestWins(m, requestId, events, z, a);
      }
    } else {
      var y :| y in events && Eligible(y) && y.at == z.at && (y.body != z.body || y.authorName != z.authorName);
      FirstOfTiesStays(m, requestId, events, y, all);
      FirstOfTiesStays(m, requestId, events, z, all);
      assert StoredAll(m, requestId, [y] + all) != StoredAll(m, requestId, [z] + all);
    }
  }

  // ----- comment transactions that read before others write -----

  /**
   * The write of a transaction that read `read`.  An update sets body, author and time of whatever
   * the message is by then; creating a message that exists by then violates the unique comment id.
   */
  function WriteCommentAfterRead(current: Option<Message>, read: Option<Message>, requestId: string, e: CommentEvent): Option<Message> {
    match ProcessComment(read, requestId, e)
    case Ok(Some(m)) =>
      if read.None? then (if current.None? then Some(m) else current)
      else if current.None? then current
      else Some(current.value.(body := e.body, authorName := e.authorName, updatedAt := e.at))
    case _ => current
  }

  predicate OlderThan(e: CommentEvent, m: Option<Message>) {
    e.at.Some? && m.Some? && m.value.updatedAt.Some? && e.at.value < m.value.updatedAt.value
  }

  predicate TimeGoesBack(before: Option<Message>, after: Option<Message>) {
    before.Some? && before.value.updatedAt.Some? &&
    (after.None? || after.value.updatedAt.None? || after.value.updatedAt.value < before.value.updatedAt.value)
  }

  /** The write takes effect on a message that is there. */
  predicate Updates(read: Option<Message>, requestId: string, e: CommentEvent) {
    Eligible(e) && read.Some? && Accepts(read, requestId, e.at.value)
  }

  /**
   * Whatever was read and whatever the message is when the write comes: exactly if the message read
   * would take the event while the current one is newer, the older comment ends up on top, and
   * exactly then jiraCommentUpdatedAt goes back.
   */
  lemma OlderCommentOnTopIff(current: Message, read: Option<Message>, requestId: string, e: CommentEvent)
    ensures var after := WriteCommentAfterRead(Some(current), read, requestId, e);
            var stale := Updates(read, requestId, e) && OlderThan(e, Some(current));
            (TimeGoesBack(Some(current), after) <==> stale) &&
            (stale ==> after == Some(current.(body := e.body, authorName := e.authorName, updatedAt := e.at)))
  {
  }

  datatype CommentStep = ReadComment(tx: nat, event: CommentEvent) | WriteComment(tx: nat)

  /** `since` is the time of the latest comment written since the transaction read. */
  datatype Reading = Reading(read: Option<Message>, event: CommentEvent, since: Option<int>)

  datatype Race = Race(stored: Option<Message>, open: map<nat, Reading>)

  predicate TakesEffect(r: Race, tx: nat, requestId: string) {
    tx in r.open && Eligible(r.open[tx].event) &&
    (if r.open[tx].read.None? then r.stored.None? else r.stored.Some? && Updates(r.open[tx].read, requestId, r.open[tx].event))
  }

  function RaceNext(r: Race, requestId: string, step: CommentStep): Race {
    match step
    case ReadComment(tx, e) => if tx in r.open then r else r.(open := r.open[tx := Reading(r.stored, e, None)])
    case WriteComment(tx) =>
      if tx !in r.open then r
      else
        var e := r.open[tx].event;
        var others := if TakesEffect(r, tx, requestId) then map k | k in r.open :: r.open[k].(since := Later(r.open[k].since, e.at)) else r.open;
        Race(WriteCommentAfterRead(r.stored, r.open[tx].read, requestId, e), others - {tx})
  }

  function Later(a: Option<int>, b: Option<int>): Option<int> {
    if a.None? || (b.Some? && a.value < b.value) then b else a
  }

  /** In some step of the run the stored comment's time goes back. */
  predicate SomeTimeGoesBack(r: Race, requestId: string, steps: seq<CommentStep>)
    decreases |steps|
  {
    steps != [] &&
    (TimeGoesBack(r.stored, RaceNext(r, requestId, steps[0]).stored) || SomeTimeGoesBack(RaceNext(r, requestId, steps[0]), requestId, steps[1..]))
  }

  /** This write takes effect although a newer comment was written since its transaction read. */
  predicate Overtaken(r: Race, requestId: string, step: CommentStep) {
    step.WriteComment? && TakesEffect(r, step.tx, requestId) && r.open[step.tx].since.Some? &&
    r.open[step.tx].event.at.value < r.open[step.tx].since.value
  }

  predicate SomeOvertaken(r: Race, requestId: string, steps: seq<CommentStep>)
    decreases |steps|
  {
    steps != [] && (Overtaken(r, requestId, steps[0]) || SomeOvertaken(RaceNext(r, requestId, steps[0]), requestId, steps[1..]))
  }

  /** While no time has gone back: what a transaction read is still stored, or its time is that of the latest write since. */
  predicate RaceOk(r: Race) {
    forall tx :: tx in r.open ==>
      if r.open[tx].since.None? then r.stored == r.open[tx].read
      else r.stored.Some? && r.stored.value.updatedAt == r.open[tx].since
  }

  lemma OvertakenIff(r: Race, requestId: string, step: CommentStep)
    requires RaceOk(r)
    ensures TimeGoesBack(r.stored, RaceNext(r, requestId, step).stored) <==> Overtaken(r, requestId, step)
    ensures !Overtaken(r, requestId, step) ==> RaceOk(RaceNext(r, requestId, step))
  {
    var t := RaceNext(r, requestId, step);
    if step.WriteComment? && step.tx in r.open && r.stored.Some? {
      OlderCommentOnTopIff(r.stored.value, r.open[step.tx].read, requestId, r.open[step.tx].event);
    }
  }

  /**
   * In every interleaving of any number of comment transactions, starting with none open: the stored
   * comment's time goes back at some point if and only if some write takes effect after a newer
   * comment was written between its transaction's read and itself.
   */
  lemma {:induction false} CommentsGoBackIff(r: Race, requestId: string, steps: seq<CommentStep>)
    requires RaceOk(r)
    ensures SomeTimeGoesBack(r, requestId, steps) <==> SomeOvertaken(r, requestId, steps)
    decreases |steps|
  {
    if steps != [] {
      OvertakenIff(r, requestId, steps[0]);
      if !Overtaken(r, requestId, steps[0]) {
        CommentsGoBackIff(RaceNext(r, requestId, steps[0]), requestId, steps[1..]);
      }
    }
  }

  /** Such a run exists from every message that takes the older comment: both read, the newer writes, the older writes. */
  lemma ReadsBeforeWritesOvertake(m: Message, requestId: string, older: CommentEvent, newer: CommentEvent)
    requires Eligible(older) && Eligible(newer) && older.at.value < newer.at.value && Accepts(Some(m), requestId, older.at.value)
    ensures SomeTimeGoesBack(Race(Some(m), map[]), requestId,
                             [ReadComment(0, older), ReadComment(1, newer), WriteComment(1), WriteComment(0)])
  {
    var start := Race(Some(m), map[]);
    var read := Race(Some(m), map[0 := Reading(Some(m), older, None), 1 := Reading(Some(m), newer, None)]);
    assert RaceNext(RaceNext(start, requestId, ReadComment(0, older)), requestId, ReadComment(1, newer)) == read;
    var steps := [ReadComment(0, older), ReadComment(1, newer), WriteComment(1), WriteComment(0)];
    assert steps[1..] == [ReadComment(1, newer), WriteComment(1), WriteComment(0)];
    assert steps[1..][1..] == [WriteComment(1), WriteComment(0)];
    assert steps[1..][1..][1..] == [WriteComment(0)];
    var written := RaceNext(read, requestId, WriteComment(1));
    assert Overtaken(written, requestId, WriteComment(0));
    assert SomeOvertaken(written, requestId, [WriteComment(0)]);
    assert SomeOvertaken(read, requestId, [WriteComment(1), WriteComment(0)]);
    CommentsGoBackIff(start, requestId, steps);
  }
}
