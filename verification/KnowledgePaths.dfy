/** What one uninterrupted run of an index worker does, from any reachable state in which it claims an event. */
module KnowledgePaths {
  import opened Wrappers
  import opened KnowledgeRows
  import opened KnowledgeIndex
  import opened Powers

  /** Attempts are left, and the event is due or its last worker's lease has lapsed. */
  predicate Due(e: Event, now: int) {
    e.attempts < e.maxAttempts &&
    match e.status
    case Pending => e.nextAttemptAt <= now
    case Failed => e.nextAttemptAt <= now
    case Processing => e.lease.Some? && e.lease.value.until <= now
    case Completed => false
    case DeadLetter => false
  }

  /** The event as a worker holds it, and what has changed since c. */
  predicate Held(c: Cell, d: Cell, key: EventKey, plan: Plan, search: Option<IndexDocument>, vector: Option<VectorRow>) {
    key in c.events && c.nextRun !in c.runs && d.article == c.article && d.used == c.used && d.search == search &&
      d.vector == vector &&
    c.nextRun in d.runs && d.runs[c.nextRun] == Run(key, c.events[key].attempts + 1, c.events[key].maxAttempts, plan, true) &&
    key in d.events && d.events[key].status == Processing && d.events[key].lease.Some? &&
      d.events[key].lease.value.token == c.nextRun &&
    d.events[key].attempts == c.events[key].attempts + 1 && d.events[key].maxAttempts == c.events[key].maxAttempts
  }

  lemma ClaimsIff(id: string, c: Cell, key: EventKey, now: int, leaseMs: nat)
    requires Inv(id, c) && key in c.events
    ensures var d := Next(id, c, Claim(key, now, leaseMs));
            if Due(c.events[key], now) then Held(c, d, key, Reading, c.search, c.vector) &&
              d.events[key].lease.value.until == now + leaseMs
            else d == c
  {
  }

  lemma Reads(id: string, c: Cell, d: Cell, key: EventKey)
    requires Held(c, d, key, Reading, c.search, c.vector)
    ensures var plan :=
              if c.article.None? then Removing(key.version, true, true)
              else
                var a := c.article.value;
                if a.version != key.version then Superseded
                else if a.content.access.status != Published || a.content.access.visibility == PrivateOnly || a.quarantined
                then Removing(a.version, true, true)
                else Embedding(DocumentOf(a));
            Held(c, Next(id, d, Read(c.nextRun)), key, plan, c.search, c.vector)
  {
  }

  lemma Embeds(id: string, c: Cell, d: Cell, key: EventKey, document: IndexDocument, model: string, version: string)
    requires Held(c, d, key, Embedding(document), c.search, c.vector)
    ensures Held(c, Next(id, d, Embed(c.nextRun, model, version)), key, WritingSearch(document,
             TextEmbedding(document.searchText, model, version)),
                 c.search, c.vector)
  {
  }

  /** A row that is not newer gives way. */
  lemma WritesSearch(id: string, c: Cell, d: Cell, key: EventKey, document: IndexDocument, embedding: TextEmbedding)
    requires Held(c, d, key, WritingSearch(document, embedding), c.search, c.vector)
    requires c.search.Some? ==> c.search.value.header.sourceVersion <= document.header.sourceVersion
    ensures Held(c, Next(id, d, WriteSearch(c.nextRun)), key, WritingVector(document, embedding), Some(document), c.vector)
  {
  }

  lemma WritesVector(id: string, c: Cell, d: Cell, key: EventKey, document: IndexDocument, embedding: TextEmbedding)
    requires Held(c, d, key, WritingVector(document, embedding), Some(document), c.vector)
    requires c.vector.Some? ==> c.vector.value.header.sourceVersion <= document.header.sourceVersion
    ensures Held(c, Next(id, d, WriteVector(c.nextRun)), key, Written(document), Some(document),
                 Some(VectorRow(document.header, Sha256(document.searchText), embedding)))
  {
  }

  /** How a run ends that completes its event. */
  predicate Done(c: Cell, d: Cell, key: EventKey, search: Option<IndexDocument>, vector: Option<VectorRow>) {
    key in c.events && d.article == c.article && d.search == search && d.vector == vector && key in d.events &&
    d.events[key].status == Completed && d.events[key].attempts == c.events[key].attempts + 1
  }

  lemma Completes(id: string, c: Cell, d: Cell, key: EventKey, plan: Plan, search: Option<IndexDocument>,
        vector: Option<VectorRow>)
    requires Held(c, d, key, plan, search, vector)
    requires plan.Superseded? || plan.Written? || (plan.Removing? && !plan.search && !plan.vectors)
    ensures Done(c, Next(id, d, Complete(c.nextRun)), key, search, vector)
  {
  }

  lemma TwoSteps(id: string, c: Cell, a: Step, b: Step)
    ensures Execute(id, c, [a, b]) == Next(id, Next(id, c, a), b)
  {
    assert [a, b][1..] == [b] && [b][1..] == [];
    assert Execute(id, Next(id, c, a), [b]) == Next(id, Next(id, c, a), b);
  }

  lemma {:induction false} ExecuteConcat(id: string, c: Cell, a: seq<Step>, b: seq<Step>)
    ensures Execute(id, c, a + b) == Execute(id, Execute(id, c, a), b)
    decreases |a|
  {
    if a == [] {
      assert a + b == b;
    } else {
      assert (a + b)[1..] == a[1..] + b;
      ExecuteConcat(id, Next(id, c, a[0]), a[1..], b);
    }
  }

  lemma ClaimsAndReads(id: string, c: Cell, key: EventKey, now: int, leaseMs: nat, plan: Plan)
    requires Inv(id, c) && key in c.events && Due(c.events[key], now)
    requires plan == if c.article.None? then Removing(key.version, true, true)
                     else if c.article.value.version != key.version then Superseded
                     else if c.article.value.content.access.status != Published ||
                       c.article.value.content.access.visibility == PrivateOnly ||
                             c.article.value.quarantined then Removing(key.version, true, true)
                     else Embedding(DocumentOf(c.article.value))
    ensures Held(c, Execute(id, c, [Claim(key, now, leaseMs), Read(c.nextRun)]), key, plan, c.search, c.vector)
  {
    ClaimsIff(id, c, key, now, leaseMs);
    Reads(id, c, Next(id, c, Claim(key, now, leaseMs)), key);
    TwoSteps(id, c, Claim(key, now, leaseMs), Read(c.nextRun));
  }

  lemma EmbedsAndWrites(id: string, c: Cell, d: Cell, key: EventKey, document: IndexDocument, model: string, version: string)
    requires Held(c, d, key, Embedding(document), c.search, c.vector)
    requires c.search.Some? ==> c.search.value.header.sourceVersion <= document.header.sourceVersion
    ensures Held(c, Execute(id, d, [Embed(c.nextRun, model, version), WriteSearch(c.nextRun)]), key,
                 WritingVector(document, TextEmbedding(document.searchText, model, version)), Some(document), c.vector)
  {
    Embeds(id, c, d, key, document, model, version);
    WritesSearch(id, c, Next(id, d, Embed(c.nextRun, model, version)), key, document,
      TextEmbedding(document.searchText, model, version));
    TwoSteps(id, d, Embed(c.nextRun, model, version), WriteSearch(c.nextRun));
  }

  lemma WritesAndCompletes(id: string, c: Cell, d: Cell, key: EventKey, document: IndexDocument, embedding: TextEmbedding)
    requires Held(c, d, key, WritingVector(document, embedding), Some(document), c.vector)
    requires c.vector.Some? ==> c.vector.value.header.sourceVersion <= document.header.sourceVersion
    ensures Done(c, Execute(id, d, [WriteVector(c.nextRun), Complete(c.nextRun)]), key, Some(document),
                 Some(VectorRow(document.header, Sha256(document.searchText), embedding)))
  {
    WritesVector(id, c, d, key, document, embedding);
    Completes(id, c, Next(id, d, WriteVector(c.nextRun)), key, Written(document), Some(document),
              Some(VectorRow(document.header, Sha256(document.searchText), embedding)));
    TwoSteps(id, d, WriteVector(c.nextRun), Complete(c.nextRun));
  }

  /**
   * In every run: a worker that is not disturbed and claims the current event of a published, visible article
   * completes it, and both rows then hold the article's current text.
   */
  lemma UndisturbedRunIndexes(id: string, steps: seq<Step>, now: int, leaseMs: nat, model: string, version: string)
    requires var c := Execute(id, EmptyCell, steps);
             c.article.Some? && c.article.value.content.access.status == Published &&
             c.article.value.content.access.visibility != PrivateOnly && !c.article.value.quarantined &&
             EventKey(c.article.value.version, false) in c.events && Due(c.events[EventKey(c.article.value.version, false)], now)
    ensures var c := Execute(id, EmptyCell, steps);
            var r, key, document := c.nextRun, EventKey(c.article.value.version, false), DocumentOf(c.article.value);
            var d := Execute(id, c, [Claim(key, now, leaseMs), Read(r)] + [Embed(r, model, version), WriteSearch(r)] +
                                    [WriteVector(r), Complete(r)]);
            Done(c, d, key, Some(document),
                 Some(VectorRow(document.header, Sha256(document.searchText),
                                TextEmbedding(document.searchText, model, version))))
  {
    InitialInv(id);
    RunKeeps(id, EmptyCell, steps);
    var c := Execute(id, EmptyCell, steps);
    var r, key, document := c.nextRun, EventKey(c.article.value.version, false), DocumentOf(c.article.value);
    var first, second, third := [Claim(key, now, leaseMs), Read(r)], [Embed(r, model, version), WriteSearch(r)],
      [WriteVector(r), Complete(r)];
    ClaimsAndReads(id, c, key, now, leaseMs, Embedding(document));
    EmbedsAndWrites(id, c, Execute(id, c, first), key, document, model, version);
    ExecuteConcat(id, c, first, second);
    WritesAndCompletes(id, c, Execute(id, c, first + second), key, document, TextEmbedding(document.searchText, model, version));
    ExecuteConcat(id, c, first + second, third);
  }

  /** A row of at most this version is gone. */
  function Without<R>(row: Option<R>, version: int, limit: nat): Option<R> {
    if row.Some? && version <= limit then None else row
  }

  function SearchVersion(c: Cell): int {
    if c.search.Some? then c.search.value.header.sourceVersion else 0
  }

  function VectorVersion(c: Cell): int {
    if c.vector.Some? then c.vector.value.header.sourceVersion else 0
  }

  lemma Removes(id: string, c: Cell, d: Cell, key: EventKey)
    requires Held(c, d, key, Removing(key.version, true, true), c.search, c.vector)
    ensures Held(c, Execute(id, d, [RemoveSearchRow(c.nextRun), RemoveVectorRow(c.nextRun)]), key,
             Removing(key.version, false, false),
                 Without(c.search, SearchVersion(c), key.version), Without(c.vector, VectorVersion(c), key.version))
  {
    TwoSteps(id, d, RemoveSearchRow(c.nextRun), RemoveVectorRow(c.nextRun));
  }

  /**
   * In every run: for an article that is deleted, or not to be found in the claimed version, an undisturbed
   * worker removes both rows up to that version; if another version is current it leaves them alone.
   */
  lemma UndisturbedRunRemoves(id: string, steps: seq<Step>, key: EventKey, now: int, leaseMs: nat)
    requires var c := Execute(id, EmptyCell, steps);
             key in c.events && Due(c.events[key], now) &&
             (c.article.None? ||
              (c.article.value.version == key.version &&
               (c.article.value.content.access.status != Published ||
                 c.article.value.content.access.visibility == PrivateOnly || c.article.value.quarantined)))
    ensures var c := Execute(id, EmptyCell, steps);
            var r := c.nextRun;
            var d := Execute(id, c, [Claim(key, now, leaseMs), Read(r)] + [RemoveSearchRow(r), RemoveVectorRow(r)]);
            Done(c, Next(id, d, Complete(r)), key,
                 Without(c.search, SearchVersion(c), key.version), Without(c.vector, VectorVersion(c), key.version))
  {
    InitialInv(id);
    RunKeeps(id, EmptyCell, steps);
    var c := Execute(id, EmptyCell, steps);
    var r := c.nextRun;
    var first, second := [Claim(key, now, leaseMs), Read(r)], [RemoveSearchRow(r), RemoveVectorRow(r)];
    ClaimsAndReads(id, c, key, now, leaseMs, Removing(key.version, true, true));
    Removes(id, c, Execute(id, c, first), key);
    ExecuteConcat(id, c, first, second);
    Completes(id, c, Execute(id, c, first + second), key, Removing(key.version, false, false),
              Without(c.search, SearchVersion(c), key.version), Without(c.vector, VectorVersion(c), key.version));
  }

  lemma SupersededRunChangesNothing(id: string, steps: seq<Step>, key: EventKey, now: int, leaseMs: nat)
    requires var c := Execute(id, EmptyCell, steps);
             key in c.events && Due(c.events[key], now) && c.article.Some? && c.article.value.version != key.version
    ensures var c := Execute(id, EmptyCell, steps);
            var d := Execute(id, c, [Claim(key, now, leaseMs), Read(c.nextRun)]);
            Done(c, Next(id, d, Complete(c.nextRun)), key, c.search, c.vector)
  {
    InitialInv(id);
    RunKeeps(id, EmptyCell, steps);
    var c := Execute(id, EmptyCell, steps);
    ClaimsAndReads(id, c, key, now, leaseMs, Superseded);
    Completes(id, c, Execute(id, c, [Claim(key, now, leaseMs), Read(c.nextRun)]), key, Superseded, c.search, c.vector);
  }

  /**
   * A failing worker that still holds its event makes it due again after the doubled delay, and on the last
   * attempt buries it and quarantines the version it is about, and no other; a late one changes nothing.
   */
  lemma FailureEnds(id: string, c: Cell, d: Cell, key: EventKey, plan: Plan, search: Option<IndexDocument>,
        vector: Option<VectorRow>, now: int)
    requires Held(c, d, key, plan, search, vector)
    ensures var after := Next(id, d, Fail(c.nextRun, now));
            var n := c.events[key].attempts + 1;
            after.search == search && after.vector == vector && key in after.events && after.events[key].lease.None? &&
            after.events[key].attempts == n &&
            if n < c.events[key].maxAttempts then
              after.article == c.article && after.events[key].status == Failed &&
                after.events[key].nextAttemptAt == now + DoublingDelayMs(n)
            else
              after.events[key].status == DeadLetter &&
              after.article == (if c.article.Some? && c.article.value.version == key.version
                                then Some(c.article.value.(quarantined := true))
                                else c.article)
  {
  }

  /** The token of another worker, or none: nothing happens but that the run ends. */
  lemma LateRunChangesNothing(id: string, c: Cell, run: nat, now: int)
    requires run in c.runs && c.runs[run].key in c.events
    requires var e := c.events[c.runs[run].key]; !(e.status == Processing && e.lease.Some? && e.lease.value.token == run)
    ensures Next(id, c, Complete(run)) == c
    ensures Next(id, c, Fail(run, now)).(runs := c.runs) == c
  {
  }

  /** Every change of an article files an event for its new version, due at once; deleting it files one as well. */
  lemma ChangesAreFiled(id: string, c: Cell, content: Content, quarantined: bool, maxAttempts: nat, now: int)
    requires Inv(id, c) && now >= 0 && maxAttempts > 0
    ensures var d := Next(id, c, Create(content, maxAttempts));
            if c.used then d == c
            else
              d.article == Some(Article(id, 1, content, false)) && EventKey(1, false) in d.events &&
              (c.events == map[] ==> Due(d.events[EventKey(1, false)], now))
    ensures c.article.Some? ==>
              var d := Next(id, c, Edit(content, quarantined, maxAttempts));
              var v := c.article.value.version + 1;
              d.article == Some(Article(id, v, content, quarantined)) && EventKey(v, false) in d.events &&
                Due(d.events[EventKey(v, false)], now)
    ensures c.article.Some? ==>
              var d := Next(id, c, Delete(maxAttempts));
              var v := c.article.value.version;
              d.article.None? && EventKey(v, true) in d.events && Due(d.events[EventKey(v, true)], now)
  {
    if c.article.Some? {
      var v := c.article.value.version;
      assert EventKey(v + 1, false) in c.events ==> EventOk(c, EventKey(v + 1, false));
      assert EventKey(v, true) in c.events ==> EventOk(c, EventKey(v, true));
    }
  }

  /** Reindexing is for the platform's articles in the expected version: the same content, filed again and out of quarantine. */
  lemma ReindexIff(id: string, c: Cell, expectedVersion: nat, maxAttempts: nat, now: int)
    requires Inv(id, c) && now >= 0 && maxAttempts > 0
    ensures var d := Next(id, c, Reindex(expectedVersion, maxAttempts));
            if c.article.Some? && c.article.value.content.access.scope == PlatformOwned &&
              c.article.value.version == expectedVersion then
              d.article == Some(Article(id, expectedVersion + 1, c.article.value.content, false)) &&
              EventKey(expectedVersion + 1, false) in d.events && Due(d.events[EventKey(expectedVersion + 1, false)], now)
            else d == c
  {
    assert EventKey(expectedVersion + 1, false) in c.events ==> EventOk(c, EventKey(expectedVersion + 1, false));
  }

  /** A lapsed lease on the last attempt buries the event and quarantines the version it is about; nothing else is buried. */
  lemma ExhaustIff(id: string, c: Cell, key: EventKey, now: int)
    requires key in c.events
    ensures var d, e := Next(id, c, Exhaust(key, now)), c.events[key];
            if e.status == Processing && e.lease.Some? && e.lease.value.until <= now && e.attempts >= e.maxAttempts then
              d.events[key] == e.(status := DeadLetter, lease := None) && d.search == c.search && d.vector == c.vector &&
              d.article == (if c.article.Some? && c.article.value.version == key.version
                            then Some(c.article.value.(quarantined := true))
                            else c.article)
            else d == c
  {
  }

  // ----- an event is completed only for work that was done -----

  /** What run r must have done to stand where it does. */
  predicate DidWork(steps: seq<Step>, r: nat, plan: Plan) {
    (!plan.Reading? ==> Read(r) in steps) &&
    match plan
    case Removing(_, search, vectors) => (!search ==> RemoveSearchRow(r) in steps) && (!vectors ==> RemoveVectorRow(r) in steps)
    case WritingVector(_, _) => WriteSearch(r) in steps
    case Written(_) => WriteSearch(r) in steps && WriteVector(r) in steps
    case _ => true
  }

  predicate AllDidWork(steps: seq<Step>, c: Cell) {
    forall r :: r in c.runs ==> DidWork(steps, r, c.runs[r].plan)
  }

  lemma DidWorkStays(steps: seq<Step>, last: Step, r: nat, plan: Plan)
    requires DidWork(steps, r, plan)
    ensures DidWork(steps + [last], r, plan)
  {
    assert forall step :: step in steps ==> step in steps + [last];
  }

  lemma DidWorkStep(id: string, steps: seq<Step>, c: Cell, last: Step)
    requires AllDidWork(steps, c)
    ensures AllDidWork(steps + [last], Next(id, c, last))
  {
    var d := Next(id, c, last);
    assert last in steps + [last];
    forall r | r in d.runs
      ensures DidWork(steps + [last], r, d.runs[r].plan)
    {
      if r in c.runs {
        DidWorkStays(steps, last, r, c.runs[r].plan);
      }
    }
  }

  lemma {:induction false} DidWorkRun(id: string, steps: seq<Step>)
    ensures AllDidWork(steps, Execute(id, EmptyCell, steps))
  {
    if steps != [] {
      var before, last := steps[..|steps| - 1], steps[|steps| - 1];
      DidWorkRun(id, before);
      DidWorkStep(id, before, Execute(id, EmptyCell, before), last);
      assert steps == before + [last];
      ExecuteConcat(id, EmptyCell, before, [last]);
      var c := Execute(id, EmptyCell, before);
      assert [last][1..] == [] && Execute(id, c, [last]) == Next(id, c, last);
    }
  }

  /**
   * In every run: a worker that completes its event has read the article, and either removed both rows, or
   * written both, or found another version current.
   */
  lemma CompletionFollowsWork(id: string, steps: seq<Step>, r: nat)
    requires var c := Execute(id, EmptyCell, steps); Next(id, c, Complete(r)) != c
    ensures Read(r) in steps &&
            ((RemoveSearchRow(r) in steps && RemoveVectorRow(r) in steps) ||
             (WriteSearch(r) in steps && WriteVector(r) in steps) ||
             (var c := Execute(id, EmptyCell, steps); r in c.runs && c.runs[r].plan == Superseded))
  {
    DidWorkRun(id, steps);
  }
}
