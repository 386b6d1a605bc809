/** The knowledge index workers as a protocol, with the article table and its trigger. */
module KnowledgeIndex {
  import opened Wrappers
  import opened KnowledgeRows
  import opened Powers

  // Every await is a step boundary, so claims, reads, row writes, completions, failures, edits, reindexing
  // and deletions of one article interleave in every order; a worker that stalls or crashes just takes no
  // more steps.  Articles do not share state, so the system is one cell per article id.  A step that is not
  // enabled changes nothing.

  datatype EventStatus = Pending | Processing | Completed | Failed | DeadLetter

  /** The idempotency key of an event within its article. */
  datatype EventKey = EventKey(version: nat, deletion: bool)

  datatype Lease = Lease(token: nat, until: int)

  datatype Event = Event(status: EventStatus, attempts: nat, maxAttempts: nat, nextAttemptAt: int, lease: Option<Lease>)

  /** What a worker that claimed an event still has to do. */
  datatype Plan =
    | Reading                                                          // findUnique
    | Superseded                                                       // another version is current
    | Removing(maximumVersion: nat, search: bool, vectors: bool)       // the two removals, in either order
    | Embedding(document: IndexDocument)                               // createDocumentEmbeddings
    | WritingSearch(document: IndexDocument, embedding: TextEmbedding)   // search.upsert
    | WritingVector(document: IndexDocument, embedding: TextEmbedding)   // vectors.upsert
    | Written(document: IndexDocument)

  type Attempt = n: nat | n >= 1 witness 1

  /** `live` until the worker completes or fails the event; removals already sent may still arrive later. */
  datatype Run = Run(key: EventKey, attempts: Attempt, maxAttempts: nat, plan: Plan, live: bool)

  /** `used` once an article with this id has existed: ids are never reused.  A lease token is a run number. */
  datatype Cell = Cell(
    article: Option<Article>,
    used: bool,
    search: Option<IndexDocument>,
    vector: Option<VectorRow>,
    events: map<EventKey, Event>,
    runs: map<nat, Run>,
    nextRun: nat)

  const EmptyCell := Cell(None, false, None, None, map[], map[], 0)

  datatype Step =
    | Create(content: Content, maxAttempts: nat)
    | Edit(edited: Content, quarantined: bool, maxAttempts: nat)
    | Reindex(expectedVersion: nat, maxAttempts: nat)
    | QuarantineArticle
    | Delete(maxAttempts: nat)
    | Claim(key: EventKey, now: int, leaseMs: nat)
    | Exhaust(key: EventKey, now: int)
    | Read(run: nat)
    | RemoveSearchRow(run: nat)
    | RemoveVectorRow(run: nat)
    | Embed(run: nat, model: string, embeddingVersion: string)
    | WriteSearch(run: nat)
    | WriteVector(run: nat)
    | Complete(run: nat)
    | Fail(run: nat, now: int)

  /** The statements of the index workers; the others edit the article. */
  predicate IsWorkerStep(step: Step) {
    !(step.Create? || step.Edit? || step.Reindex? || step.QuarantineArticle? || step.Delete?)
  }

  // ----- the article table and its trigger -----

  /** INSERT … ON CONFLICT ("idempotencyKey") DO NOTHING. */
  function Enqueued(events: map<EventKey, Event>, key: EventKey, maxAttempts: nat): map<EventKey, Event> {
    if key in events then events else events[key := Event(Pending, 0, maxAttempts, 0, None)]
  }

  function AfterCreate(c: Cell, id: string, content: Content, maxAttempts: nat): Cell {
    if c.article.Some? || c.used then c
    else c.(article := Some(Article(id, 1, content, false)), used := true,
            events := Enqueued(c.events, EventKey(1, false), maxAttempts))
  }

  /** Any change of content raises the version; the trigger then files an event for the new version. */
  function NewVersion(c: Cell, content: Content, quarantined: bool, maxAttempts: nat): Cell
    requires c.article.Some?
  {
    var version := c.article.value.version + 1;
    c.(article := Some(Article(c.article.value.id, version, content, quarantined)),
       events := Enqueued(c.events, EventKey(version, false), maxAttempts))
  }

  function AfterReindex(c: Cell, expectedVersion: nat, maxAttempts: nat): Cell {
    if c.article.Some? && c.article.value.content.access.scope == PlatformOwned && c.article.value.version == expectedVersion
    then NewVersion(c, c.article.value.content, false, maxAttempts)
    else c
  }

  /** quarantinedAt is set on the version it condemns; a second event for that version is not filed. */
  function Quarantined(article: Option<Article>, version: nat): Option<Article> {
    if article.Some? && article.value.version == version then Some(article.value.(quarantined := true)) else article
  }

  function AfterDelete(c: Cell, maxAttempts: nat): Cell {
    if c.article.None? then c
    else c.(article := None, events := Enqueued(c.events, EventKey(c.article.value.version, true), maxAttempts))
  }

  // ----- the workers -----

  predicate Claimable(e: Event, now: int) {
    e.attempts < e.maxAttempts &&
    ((e.status in {Pending, Failed} && e.nextAttemptAt <= now) ||
     (e.status == Processing && e.lease.Some? && e.lease.value.until <= now))
  }

  function AfterClaim(c: Cell, key: EventKey, now: int, leaseMs: nat): Cell {
    if key !in c.events || !Claimable(c.events[key], now) then c
    else
      var e := c.events[key];
      c.(events := c.events[key := e.(status := Processing, attempts := e.attempts + 1, lease := Some(Lease(c.nextRun, now + leaseMs)))],
         runs := c.runs[c.nextRun := Run(key, e.attempts + 1, e.maxAttempts, Reading, true)],
         nextRun := c.nextRun + 1)
  }

  function AfterExhaust(c: Cell, key: EventKey, now: int): Cell {
    if key in c.events && c.events[key].status == Processing && c.events[key].lease.Some? &&
       c.events[key].lease.value.until <= now && c.events[key].attempts >= c.events[key].maxAttempts
    then c.(events := c.events[key := c.events[key].(status := DeadLetter, lease := None)],
            article := Quarantined(c.article, key.version))
    else c
  }

  function PlanFor(article: Option<Article>, key: EventKey): Plan {
    if article.None? then Removing(key.version, true, true)
    else if article.value.version != key.version then Superseded
    else if !Indexable(article.value) then Removing(article.value.version, true, true)
    else Embedding(DocumentOf(article.value))
  }

  function WithPlan(c: Cell, run: nat, plan: Plan): Cell
    requires run in c.runs
  {
    c.(runs := c.runs[run := c.runs[run].(plan := plan)])
  }

  function AfterRead(c: Cell, run: nat): Cell {
    if run in c.runs && c.runs[run].live && c.runs[run].plan.Reading?
    then WithPlan(c, run, PlanFor(c.article, c.runs[run].key))
    else c
  }

  function AfterRemoveSearch(c: Cell, run: nat): Cell {
    if run in c.runs && c.runs[run].plan.Removing? && c.runs[run].plan.search then
      var plan := c.runs[run].plan;
      WithPlan(c, run, plan.(search := false)).(search := RemoveSearch(c.search, plan.maximumVersion))
    else c
  }

  function AfterRemoveVector(c: Cell, run: nat): Cell {
    if run in c.runs && c.runs[run].plan.Removing? && c.runs[run].plan.vectors then
      var plan := c.runs[run].plan;
      WithPlan(c, run, plan.(vectors := false)).(vector := RemoveVector(c.vector, plan.maximumVersion))
    else c
  }

  function AfterEmbed(c: Cell, run: nat, model: string, embeddingVersion: string): Cell {
    if run in c.runs && c.runs[run].live && c.runs[run].plan.Embedding? then
      var document := c.runs[run].plan.document;
      WithPlan(c, run, WritingSearch(document, TextEmbedding(document.searchText, model, embeddingVersion)))
    else c
  }

  function AfterWriteSearch(c: Cell, run: nat): Cell {
    if run in c.runs && c.runs[run].live && c.runs[run].plan.WritingSearch? then
      var plan := c.runs[run].plan;
      WithPlan(c, run, WritingVector(plan.document, plan.embedding)).(search := UpsertSearch(c.search, plan.document))
    else c
  }

  function AfterWriteVector(c: Cell, run: nat): Cell {
    if run in c.runs && c.runs[run].live && c.runs[run].plan.WritingVector? then
      var plan := c.runs[run].plan;
      WithPlan(c, run, Written(plan.document)).(vector := UpsertVector(c.vector, plan.document, plan.embedding))
    else c
  }

  predicate Holds(c: Cell, run: nat) {
    run in c.runs && c.runs[run].key in c.events && c.events[c.runs[run].key].status == Processing &&
    c.events[c.runs[run].key].lease.Some? && c.events[c.runs[run].key].lease.value.token == run
  }

  predicate WorkDone(plan: Plan) {
    plan.Superseded? || plan.Written? || (plan.Removing? && !plan.search && !plan.vectors)
  }

  /** A refused completion throws, and the run goes on to its own refused failure write. */
  function AfterComplete(c: Cell, run: nat): Cell {
    if Holds(c, run) && c.runs[run].live && WorkDone(c.runs[run].plan) then
      var key := c.runs[run].key;
      c.(events := c.events[key := c.events[key].(status := Completed, lease := None)],
         runs := c.runs[run := c.runs[run].(live := false)])
    else c
  }

  /** The failure write; an exhausted event takes its article out of the index. */
  function FailedEvent(c: Cell, run: nat, now: int): Cell
    requires Holds(c, run)
  {
    var r := c.runs[run];
    var e := c.events[r.key];
    if r.attempts >= r.maxAttempts then
      c.(events := c.events[r.key := e.(status := DeadLetter, nextAttemptAt := now, lease := None)],
         article := Quarantined(c.article, r.key.version))
    else
      c.(events := c.events[r.key := e.(
           status := Failed, nextAttemptAt := now + DoublingDelayMs(r.attempts), lease := None)])
  }

  function Stopped(c: Cell, run: nat): Cell
    requires run in c.runs
  {
    c.(runs := c.runs[run := c.runs[run].(live := false)])
  }

  function AfterFail(c: Cell, run: nat, now: int): Cell {
    if run !in c.runs || !c.runs[run].live then c
    else if Holds(c, run) then Stopped(FailedEvent(c, run, now), run)
    else Stopped(c, run)
  }

  function Next(id: string, c: Cell, step: Step): Cell {
    match step
    case Create(content, maxAttempts) => AfterCreate(c, id, content, maxAttempts)
    case Edit(content, quarantined, maxAttempts) =>
      if c.article.None? then c else NewVersion(c, content, quarantined, maxAttempts)
    case Reindex(expectedVersion, maxAttempts) => AfterReindex(c, expectedVersion, maxAttempts)
    case QuarantineArticle =>
      if c.article.None? then c else c.(article := Quarantined(c.article, c.article.value.version))
    case Delete(maxAttempts) => AfterDelete(c, maxAttempts)
    case Claim(key, now, leaseMs) => AfterClaim(c, key, now, leaseMs)
    case Exhaust(key, now) => AfterExhaust(c, key, now)
    case Read(run) => AfterRead(c, run)
    case RemoveSearchRow(run) => AfterRemoveSearch(c, run)
    case RemoveVectorRow(run) => AfterRemoveVector(c, run)
    case Embed(run, model, embeddingVersion) => AfterEmbed(c, run, model, embeddingVersion)
    case WriteSearch(run) => AfterWriteSearch(c, run)
    case WriteVector(run) => AfterWriteVector(c, run)
    case Complete(run) => AfterComplete(c, run)
    case Fail(run, now) => AfterFail(c, run, now)
  }

  function Execute(id: string, c: Cell, steps: seq<Step>): Cell
    decreases |steps|
  {
    if steps == [] then c else Execute(id, Next(id, c, steps[0]), steps[1..])
  }

  // ----- the invariant -----

  /** The document of the article's current version, as far as a row of version v can be compared with it. */
  predicate DocumentOk(article: Option<Article>, document: IndexDocument) {
    article.Some? ==>
      document.header.sourceVersion <= article.value.version &&
      (document.header.sourceVersion == article.value.version ==> document == DocumentOf(article.value))
  }

  predicate VectorOk(article: Option<Article>, row: VectorRow) {
    article.Some? ==>
      row.header.sourceVersion <= article.value.version &&
      (row.header.sourceVersion == article.value.version ==>
         row == VectorRowFor(DocumentOf(article.value), row.embedding) && row.embedding.text == DocumentOf(article.value).searchText)
  }

  predicate SearchCurrent(c: Cell) {
    c.article.Some? && c.search == Some(DocumentOf(c.article.value))
  }

  predicate VectorCurrent(c: Cell) {
    c.article.Some? && c.vector.Some? && c.vector.value.header.sourceVersion == c.article.value.version
  }

  /** The event of version v has to bring the index of an indexable article up to date. */
  predicate Wanted(c: Cell, key: EventKey) {
    c.article.Some? && c.article.value.version == key.version && !key.deletion && Indexable(c.article.value)
  }

  predicate PlanOk(c: Cell, key: EventKey, plan: Plan) {
    match plan
    case Reading => true
    case Superseded => !Wanted(c, key)
    case Removing(version, _, _) =>
      version == key.version &&
      (c.article.Some? ==> version < c.article.value.version || (version == c.article.value.version && !Indexable(c.article.value)))
    case Embedding(document) => DocumentOk(c.article, document) && document.header.sourceVersion == key.version
    case WritingSearch(document, embedding) =>
      DocumentOk(c.article, document) && document.header.sourceVersion == key.version && embedding.text == document.searchText
    case WritingVector(document, embedding) =>
      DocumentOk(c.article, document) && document.header.sourceVersion == key.version && embedding.text == document.searchText &&
      (Wanted(c, key) ==> SearchCurrent(c))
    case Written(document) => Wanted(c, key) ==> SearchCurrent(c) && VectorCurrent(c)
  }

  predicate RowsOk(id: string, c: Cell) {
    (c.article.Some? ==> c.used && c.article.value.id == id) &&
    (!c.used ==> c.search.None? && c.vector.None?) &&
    (c.search.Some? ==> DocumentOk(c.article, c.search.value)) &&
    (c.vector.Some? ==> VectorOk(c.article, c.vector.value))
  }

  predicate EventOk(c: Cell, key: EventKey) {
    c.used &&
    (key in c.events ==>
      var e := c.events[key];
      (c.article.Some? ==> key.version <= c.article.value.version && !key.deletion) &&
      (e.status == Completed && Wanted(c, key) ==> SearchCurrent(c) && VectorCurrent(c)) &&
      (e.status == DeadLetter ==> !Wanted(c, key)))
  }

  predicate EventsOk(c: Cell) {
    (forall key :: key in c.events ==> EventOk(c, key)) &&
    (c.article.Some? ==> EventKey(c.article.value.version, false) in c.events)
  }

  predicate RunsOk(c: Cell) {
    forall run :: run in c.runs ==>
      run < c.nextRun && c.runs[run].key in c.events && PlanOk(c, c.runs[run].key, c.runs[run].plan)
  }

  predicate Inv(id: string, c: Cell) {
    RowsOk(id, c) && EventsOk(c) && RunsOk(c)
  }

  lemma InitialInv(id: string)
    ensures Inv(id, EmptyCell)
  {
  }

  // ----- the rows of an up-to-date index are stable under every worker step -----

  /** What a step of a worker leaves true of the article and the rows. */
  predicate Stable(c: Cell, d: Cell) {
    && d.used == c.used
    && (!c.used ==> d.search.None? && d.vector.None?)
    && (d.article == c.article || (c.article.Some? && d.article == Some(c.article.value.(quarantined := true))))
    && (d.search.Some? ==> DocumentOk(d.article, d.search.value))
    && (d.vector.Some? ==> VectorOk(d.article, d.vector.value))
    && (c.article.Some? && d.article == c.article && Indexable(c.article.value) ==>
         (SearchCurrent(c) ==> SearchCurrent(d)) && (VectorCurrent(c) ==> VectorCurrent(d)))
  }

  lemma PlanStaysOk(c: Cell, d: Cell, key: EventKey, plan: Plan)
    requires Stable(c, d) && PlanOk(c, key, plan)
    ensures PlanOk(d, key, plan)
  {
  }

  lemma EventStaysOk(c: Cell, d: Cell, key: EventKey)
    requires Stable(c, d) && key in c.events && EventOk(c, key)
    requires key in d.events && d.events[key].status == c.events[key].status
    ensures EventOk(d, key)
  {
  }

  /** A worker step changes at most one event and one run; those two have to be looked at. */
  lemma WorkerStepKeeps(id: string, c: Cell, d: Cell, key: EventKey, run: nat)
    requires Inv(id, c) && Stable(c, d)
    requires d.events.Keys == c.events.Keys && (forall k :: k in c.events && k != key ==> d.events[k] == c.events[k])
    requires forall r :: r in d.runs && r != run ==> r in c.runs && d.runs[r] == c.runs[r]
    requires c.nextRun <= d.nextRun
    requires key in d.events ==> EventOk(d, key)
    requires run in d.runs ==> run < d.nextRun && d.runs[run].key in d.events && PlanOk(d, d.runs[run].key, d.runs[run].plan)
    ensures Inv(id, d)
  {
    forall k | k in d.events && k != key
      ensures EventOk(d, k)
    {
      EventStaysOk(c, d, k);
    }
    forall r | r in d.runs && r != run
      ensures r < d.nextRun && d.runs[r].key in d.events && PlanOk(d, d.runs[r].key, d.runs[r].plan)
    {
      PlanStaysOk(c, d, d.runs[r].key, d.runs[r].plan);
    }
  }

  lemma ClaimKeeps(id: string, c: Cell, key: EventKey, now: int, leaseMs: nat)
    requires Inv(id, c)
    ensures Inv(id, AfterClaim(c, key, now, leaseMs)) && Stable(c, AfterClaim(c, key, now, leaseMs))
  {
    var d := AfterClaim(c, key, now, leaseMs);
    if d != c {
      assert EventOk(c, key);
      WorkerStepKeeps(id, c, d, key, c.nextRun);
    }
  }

  lemma ExhaustKeeps(id: string, c: Cell, key: EventKey, now: int)
    requires Inv(id, c)
    ensures Inv(id, AfterExhaust(c, key, now)) && Stable(c, AfterExhaust(c, key, now))
  {
    var d := AfterExhaust(c, key, now);
    if d != c {
      assert EventOk(c, key);
      WorkerStepKeeps(id, c, d, key, c.nextRun);
    }
  }

  lemma ReadKeeps(id: string, c: Cell, run: nat)
    requires Inv(id, c)
    ensures Inv(id, AfterRead(c, run)) && Stable(c, AfterRead(c, run))
  {
    var d := AfterRead(c, run);
    if d != c {
      var key := c.runs[run].key;
      assert EventOk(c, key);
      WorkerStepKeeps(id, c, d, key, run);
    }
  }

  lemma RemoveSearchKeeps(id: string, c: Cell, run: nat)
    requires Inv(id, c)
    ensures Inv(id, AfterRemoveSearch(c, run)) && Stable(c, AfterRemoveSearch(c, run))
  {
    var d := AfterRemoveSearch(c, run);
    if run in c.runs && c.runs[run].plan.Removing? && c.runs[run].plan.search {
      var key := c.runs[run].key;
      assert PlanOk(c, key, c.runs[run].plan) && EventOk(c, key);
      assert Stable(c, d);
      EventStaysOk(c, d, key);
      WorkerStepKeeps(id, c, d, key, run);
    }
  }

  lemma RemoveVectorKeeps(id: string, c: Cell, run: nat)
    requires Inv(id, c)
    ensures Inv(id, AfterRemoveVector(c, run)) && Stable(c, AfterRemoveVector(c, run))
  {
    var d := AfterRemoveVector(c, run);
    if run in c.runs && c.runs[run].plan.Removing? && c.runs[run].plan.vectors {
      var key := c.runs[run].key;
      assert PlanOk(c, key, c.runs[run].plan) && EventOk(c, key);
      assert Stable(c, d);
      EventStaysOk(c, d, key);
      WorkerStepKeeps(id, c, d, key, run);
    }
  }

  lemma EmbedKeeps(id: string, c: Cell, run: nat, model: string, embeddingVersion: string)
    requires Inv(id, c)
    ensures Inv(id, AfterEmbed(c, run, model, embeddingVersion)) && Stable(c, AfterEmbed(c, run, model, embeddingVersion))
  {
    var d := AfterEmbed(c, run, model, embeddingVersion);
    if run in c.runs && c.runs[run].live && c.runs[run].plan.Embedding? {
      var key := c.runs[run].key;
      assert PlanOk(c, key, c.runs[run].plan) && EventOk(c, key);
      EventStaysOk(c, d, key);
      WorkerStepKeeps(id, c, d, key, run);
    }
  }

  lemma WriteSearchKeeps(id: string, c: Cell, run: nat)
    requires Inv(id, c)
    ensures Inv(id, AfterWriteSearch(c, run)) && Stable(c, AfterWriteSearch(c, run))
  {
    var d := AfterWriteSearch(c, run);
    if run in c.runs && c.runs[run].live && c.runs[run].plan.WritingSearch? {
      var key := c.runs[run].key;
      assert PlanOk(c, key, c.runs[run].plan) && EventOk(c, key);
      assert Stable(c, d);
      EventStaysOk(c, d, key);
      WorkerStepKeeps(id, c, d, key, run);
    }
  }

  lemma WriteVectorKeeps(id: string, c: Cell, run: nat)
    requires Inv(id, c)
    ensures Inv(id, AfterWriteVector(c, run)) && Stable(c, AfterWriteVector(c, run))
  {
    var d := AfterWriteVector(c, run);
    if run in c.runs && c.runs[run].live && c.runs[run].plan.WritingVector? {
      var key := c.runs[run].key;
      assert PlanOk(c, key, c.runs[run].plan) && EventOk(c, key);
      assert Stable(c, d);
      EventStaysOk(c, d, key);
      WorkerStepKeeps(id, c, d, key, run);
    }
  }

  lemma CompleteKeeps(id: string, c: Cell, run: nat)
    requires Inv(id, c)
    ensures Inv(id, AfterComplete(c, run)) && Stable(c, AfterComplete(c, run))
  {
    var d := AfterComplete(c, run);
    if Holds(c, run) && c.runs[run].live && WorkDone(c.runs[run].plan) {
      var key := c.runs[run].key;
      assert PlanOk(c, key, c.runs[run].plan) && EventOk(c, key);
      PlanStaysOk(c, d, key, c.runs[run].plan);
      WorkerStepKeeps(id, c, d, key, run);
    }
  }

  lemma StoppedKeeps(id: string, c: Cell, run: nat)
    requires Inv(id, c) && run in c.runs
    ensures Inv(id, Stopped(c, run)) && Stable(c, Stopped(c, run))
  {
    var d := Stopped(c, run);
    var key := c.runs[run].key;
    assert PlanOk(c, key, c.runs[run].plan) && EventOk(c, key);
    EventStaysOk(c, d, key);
    WorkerStepKeeps(id, c, d, key, run);
  }

  lemma FailedEventKeeps(id: string, c: Cell, run: nat, now: int)
    requires Inv(id, c) && Holds(c, run)
    ensures Inv(id, FailedEvent(c, run, now)) && Stable(c, FailedEvent(c, run, now))
  {
    var d := FailedEvent(c, run, now);
    var key := c.runs[run].key;
    assert EventOk(c, key);
    WorkerStepKeeps(id, c, d, key, c.nextRun);
  }

  lemma FailKeeps(id: string, c: Cell, run: nat, now: int)
    requires Inv(id, c)
    ensures Inv(id, AfterFail(c, run, now)) && Stable(c, AfterFail(c, run, now))
  {
    if run in c.runs && c.runs[run].live {
      if Holds(c, run) {
        FailedEventKeeps(id, c, run, now);
        StoppedKeeps(id, FailedEvent(c, run, now), run);
      } else {
        StoppedKeeps(id, c, run);
      }
    }
  }

  /** Once both rows are current, no worker, however late, drops or changes the document behind them. */
  lemma WorkersKeepCurrentRows(id: string, c: Cell, step: Step)
    requires Inv(id, c) && IsWorkerStep(step)
    ensures Inv(id, Next(id, c, step)) && Stable(c, Next(id, c, step))
  {
    match step {
      case Claim(key, now, leaseMs) => ClaimKeeps(id, c, key, now, leaseMs);
      case Exhaust(key, now) => ExhaustKeeps(id, c, key, now);
      case Read(run) => ReadKeeps(id, c, run);
      case RemoveSearchRow(run) => RemoveSearchKeeps(id, c, run);
      case RemoveVectorRow(run) => RemoveVectorKeeps(id, c, run);
      case Embed(run, model, embeddingVersion) => EmbedKeeps(id, c, run, model, embeddingVersion);
      case WriteSearch(run) => WriteSearchKeeps(id, c, run);
      case WriteVector(run) => WriteVectorKeeps(id, c, run);
      case Complete(run) => CompleteKeeps(id, c, run);
      case Fail(run, now) => FailKeeps(id, c, run, now);
    }
  }

  // ----- steps that change the article -----

  lemma NewVersionKeeps(id: string, c: Cell, content: Content, quarantined: bool, maxAttempts: nat)
    requires Inv(id, c) && c.article.Some?
    ensures Inv(id, NewVersion(c, content, quarantined, maxAttempts))
  {
    var d := NewVersion(c, content, quarantined, maxAttempts);
    forall key | key in d.events
      ensures EventOk(d, key)
    {
      if key in c.events {
        assert EventOk(c, key);
      }
    }
    forall run | run in d.runs
      ensures run < d.nextRun && d.runs[run].key in d.events && PlanOk(d, d.runs[run].key, d.runs[run].plan)
    {
      assert EventOk(c, c.runs[run].key);
      assert PlanOk(c, c.runs[run].key, c.runs[run].plan);
    }
  }

  lemma CreateKeeps(id: string, c: Cell, content: Content, maxAttempts: nat)
    requires Inv(id, c)
    ensures Inv(id, AfterCreate(c, id, content, maxAttempts))
  {
  }

  lemma DeleteKeeps(id: string, c: Cell, maxAttempts: nat)
    requires Inv(id, c)
    ensures Inv(id, AfterDelete(c, maxAttempts))
  {
  }

  lemma QuarantineKeeps(id: string, c: Cell)
    requires Inv(id, c)
    ensures Inv(id, Next(id, c, QuarantineArticle)) && Stable(c, Next(id, c, QuarantineArticle))
  {
    if c.article.Some? {
      var key := EventKey(c.article.value.version, false);
      assert EventOk(c, key);
      WorkerStepKeeps(id, c, Next(id, c, QuarantineArticle), key, c.nextRun);
    }
  }

  lemma StepKeeps(id: string, c: Cell, step: Step)
    requires Inv(id, c)
    ensures Inv(id, Next(id, c, step))
  {
    if IsWorkerStep(step) {
      WorkersKeepCurrentRows(id, c, step);
    } else if step.QuarantineArticle? {
      QuarantineKeeps(id, c);
    } else if step.Create? {
      CreateKeeps(id, c, step.content, step.maxAttempts);
    } else if step.Delete? {
      DeleteKeeps(id, c, step.maxAttempts);
    } else if c.article.Some? {
      if step.Edit? {
        NewVersionKeeps(id, c, step.edited, step.quarantined, step.maxAttempts);
      } else {
        NewVersionKeeps(id, c, c.article.value.content, false, step.maxAttempts);
      }
    }
  }

  lemma {:induction false} RunKeeps(id: string, c: Cell, steps: seq<Step>)
    requires Inv(id, c)
    ensures Inv(id, Execute(id, c, steps))
    decreases |steps|
  {
    if steps != [] {
      StepKeeps(id, c, steps[0]);
      RunKeeps(id, Next(id, c, steps[0]), steps[1..]);
    }
  }

  // ----- all articles together -----

  function ExecuteAll(cells: map<string, Cell>, steps: seq<(string, Step)>): map<string, Cell>
    decreases |steps|
  {
    if steps == [] then cells
    else
      var (id, step) := steps[0];
      ExecuteAll(cells[id := Next(id, Find(cells, id).GetOr(EmptyCell), step)], steps[1..])
  }

  function Only(id: string, steps: seq<(string, Step)>): seq<Step> {
    if steps == [] then []
    else if steps[0].0 == id then [steps[0].1] + Only(id, steps[1..])
    else Only(id, steps[1..])
  }

  /** Every interleaving over all articles looks, to one article, like the run of its own steps. */
  lemma {:induction false} ArticlesAreIndependent(cells: map<string, Cell>, steps: seq<(string, Step)>, id: string)
    ensures Find(ExecuteAll(cells, steps), id).GetOr(EmptyCell) == Execute(id, Find(cells, id).GetOr(EmptyCell), Only(id, steps))
    decreases |steps|
  {
    if steps != [] {
      var (other, step) := steps[0];
      var next := cells[other := Next(other, Find(cells, other).GetOr(EmptyCell), step)];
      ArticlesAreIndependent(next, steps[1..], id);
      if other == id {
        assert Only(id, steps)[1..] == Only(id, steps[1..]);
      }
    }
  }

  // ----- the results -----

  /** In every run: what a query returns is the current document of an article its audience may read. */
  lemma QueriesReturnCurrentDocuments(id: string, steps: seq<Step>, matches: string -> bool, near: TextEmbedding -> bool, audience: Audience)
    ensures var c := Execute(id, EmptyCell, steps);
            c.article.Some? ==>
              var a := c.article.value;
              (c.search.Some? && SearchReturns(c.search.value, a, matches, audience) ==>
                 c.search.value == DocumentOf(a) && Indexable(a) && CanRead(a.content.access, audience)) &&
              (c.vector.Some? && VectorReturns(c.vector.value, a, near, audience) ==>
                 c.vector.value.header == DocumentOf(a).header && c.vector.value.embedding.text == DocumentOf(a).searchText &&
                 c.vector.value.contentHash == Sha256(DocumentOf(a).searchText) && Indexable(a) && CanRead(a.content.access, audience))
  {
    InitialInv(id);
    RunKeeps(id, EmptyCell, steps);
  }

  /** In every run: once the current version's event is COMPLETED, every reader finds the article by both queries. */
  lemma CompletedMeansFound(id: string, steps: seq<Step>, matches: string -> bool, near: TextEmbedding -> bool, audience: Audience)
    ensures var c := Execute(id, EmptyCell, steps);
            c.article.Some? && Indexable(c.article.value) && EventKey(c.article.value.version, false) in c.events &&
            c.events[EventKey(c.article.value.version, false)].status == Completed && CanRead(c.article.value.content.access, audience) ==>
              c.search.Some? && c.vector.Some? &&
              (SearchReturns(c.search.value, c.article.value, matches, audience) <==> matches(DocumentOf(c.article.value).searchText)) &&
              (VectorReturns(c.vector.value, c.article.value, near, audience) <==> near(c.vector.value.embedding))
  {
    var c := Execute(id, EmptyCell, steps);
    InitialInv(id);
    RunKeeps(id, EmptyCell, steps);
    if c.article.Some? && EventKey(c.article.value.version, false) in c.events {
      assert EventOk(c, EventKey(c.article.value.version, false));
    }
  }

  /** In every run: the current version always has its event, and when that event is dead the article is out of the index. */
  lemma DeadLetterHidesArticle(id: string, steps: seq<Step>, matches: string -> bool, near: TextEmbedding -> bool, audience: Audience)
    ensures var c := Execute(id, EmptyCell, steps);
            c.article.Some? ==>
              var key := EventKey(c.article.value.version, false);
              key in c.events &&
              (c.events[key].status == DeadLetter ==>
                (c.search.Some? ==> !SearchReturns(c.search.value, c.article.value, matches, audience)) &&
                (c.vector.Some? ==> !VectorReturns(c.vector.value, c.article.value, near, audience)))
  {
    var c := Execute(id, EmptyCell, steps);
    InitialInv(id);
    RunKeeps(id, EmptyCell, steps);
    if c.article.Some? {
      assert EventOk(c, EventKey(c.article.value.version, false));
    }
  }
}
