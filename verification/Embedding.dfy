/**
 * Incremental document embedding: only chunks whose stored hash differs are embedded, batch by
 * batch, and vectors of vanished chunks are deleted.  The vectors that result are those of a full
 * rebuild, also after crashes between batches.
 */
module Embedding {
  import opened Wrappers

  /** Where a chunk comes from: its pages, its segment and the way it was extracted. */
  datatype Provenance = Provenance(pageStart: Option<nat>, pageEnd: Option<nat>, segment: Option<nat>, extraction: string)

  datatype Chunk = Chunk(id: string, index: nat, text: string, provenance: Provenance)

  /** SHA-256, taken to be injective. */
  datatype Digest = Sha256(text: string)

  /** The provider is deterministic: text and model fix the vector. */
  datatype Vector = Vector(text: string, model: string)

  datatype Key = Key(chunkId: string, model: string, version: string)

  datatype Record = Record(contentHash: Digest, vector: Vector, chunkIndex: nat, provenance: Provenance)

  type Records = map<Key, Record>

  /** The SHA-256 of the chunks' ids and hashes in index order. */
  datatype DocumentDigest = DocumentDigest(parts: seq<(string, Digest)>)

  function RecordFor(c: Chunk, model: string): Record {
    Record(Sha256(c.text), Vector(c.text, model), c.index, c.provenance)
  }

  predicate IsChanged(c: Chunk, records: Records, model: string, version: string) {
    var key := Key(c.id, model, version);
    key !in records || records[key].contentHash != Sha256(c.text)
  }

  function Changed(chunks: seq<Chunk>, records: Records, model: string, version: string): seq<Chunk> {
    if chunks == [] then []
    else (if IsChanged(chunks[0], records, model, version) then [chunks[0]] else []) + Changed(chunks[1..], records, model, version)
  }

  function Upserted(records: Records, batch: seq<Chunk>, model: string, version: string): Records {
    if batch == [] then records
    else
      var c := batch[|batch| - 1];
      Upserted(records, batch[..|batch| - 1], model, version)[Key(c.id, model, version) := RecordFor(c, model)]
  }

  function Ids(chunks: seq<Chunk>): set<string> {
    set c | c in chunks :: c.id
  }

  predicate IsStale(key: Key, active: set<string>, model: string, version: string) {
    key.model == model && key.version == version && key.chunkId !in active
  }

  function WithoutStale(records: Records, active: set<string>, model: string, version: string): Records {
    map key | key in records && !IsStale(key, active, model, version) :: records[key]
  }

  /** What embedDocument leaves in the store. */
  function AfterEmbedding(records: Records, chunks: seq<Chunk>, model: string, version: string): Records {
    WithoutStale(Upserted(records, Changed(chunks, records, model, version), model, version), Ids(chunks), model, version)
  }

  /** Stable insertion by index, as in a stable sort. */
  function InsertByIndex(c: Chunk, sorted: seq<Chunk>): seq<Chunk> {
    if sorted == [] || c.index <= sorted[0].index then [c] + sorted else [sorted[0]] + InsertByIndex(c, sorted[1..])
  }

  function SortByIndex(chunks: seq<Chunk>): seq<Chunk> {
    if chunks == [] then [] else InsertByIndex(chunks[0], SortByIndex(chunks[1..]))
  }

  function Parts(chunks: seq<Chunk>): seq<(string, Digest)> {
    if chunks == [] then [] else [(chunks[0].id, Sha256(chunks[0].text))] + Parts(chunks[1..])
  }

  function HashDocumentChunks(chunks: seq<Chunk>): DocumentDigest {
    DocumentDigest(Parts(SortByIndex(chunks)))
  }

  lemma {:induction false} UpsertedAppend(records: Records, a: seq<Chunk>, b: seq<Chunk>, model: string, version: string)
    ensures Upserted(records, a + b, model, version) == Upserted(Upserted(records, a, model, version), b, model, version)
  {
    if b == [] {
      assert a + b == a;
    } else {
      UpsertedAppend(records, a, b[..|b| - 1], model, version);
      assert (a + b)[..|a + b| - 1] == a + b[..|b| - 1];
    }
  }

  lemma BatchUpserted(records: Records, changed: seq<Chunk>, index: nat, end: nat, model: string, version: string)
    requires index <= end <= |changed|
    ensures Upserted(Upserted(records, changed[..index], model, version), changed[index..end], model, version) ==
            Upserted(records, changed[..end], model, version)
  {
    UpsertedAppend(records, changed[..index], changed[index..end], model, version);
    assert changed[..index] + changed[index..end] == changed[..end];
  }

  class VectorRepository {
    var records: Records

    constructor ()
      ensures records == map[]
    {
      records := map[];
    }

    method Upsert(batch: seq<Chunk>, vectors: seq<Vector>, model: string, version: string)
      requires |vectors| == |batch| && forall i :: 0 <= i < |batch| ==> vectors[i] == Vector(batch[i].text, model)
      modifies this
      ensures records == Upserted(old(records), batch, model, version)
    {
      for i := 0 to |batch|
        invariant records == Upserted(old(records), batch[..i], model, version)
      {
        assert batch[..i + 1][..i] == batch[..i];
        var c := batch[i];
        records := records[Key(c.id, model, version) := Record(Sha256(c.text), vectors[i], c.index, c.provenance)];
      }
      assert batch[..|batch|] == batch;
    }

    method DeleteStale(active: set<string>, model: string, version: string)
      modifies this
      ensures records == WithoutStale(old(records), active, model, version)
    {
      records := map key | key in records && !(key.model == model && key.version == version && key.chunkId !in active) :: records[key];
    }
  }

  /** `createDocumentEmbeddings`: one vector per text. */
  function Embed(texts: seq<string>, model: string): seq<Vector> {
    seq(|texts|, i requires 0 <= i < |texts| => Vector(texts[i], model))
  }

  function Texts(chunks: seq<Chunk>): seq<string> {
    seq(|chunks|, i requires 0 <= i < |chunks| => chunks[i].text)
  }

  lemma {:induction false} ChangedAppend(chunks: seq<Chunk>, c: Chunk, records: Records, model: string, version: string)
    ensures Changed(chunks + [c], records, model, version) ==
            Changed(chunks, records, model, version) + if IsChanged(c, records, model, version) then [c] else []
  {
    if chunks == [] {
      assert [] + [c] == [c] && [c][1..] == [];
    } else {
      assert (chunks + [c])[1..] == chunks[1..] + [c];
      ChangedAppend(chunks[1..], c, records, model, version);
    }
  }

  method SelectChanged(chunks: seq<Chunk>, records: Records, model: string, version: string) returns (changed: seq<Chunk>)
    ensures changed == Changed(chunks, records, model, version)
  {
    changed := [];
    for i := 0 to |chunks|
      invariant changed == Changed(chunks[..i], records, model, version)
    {
      ChangedAppend(chunks[..i], chunks[i], records, model, version);
      assert chunks[..i] + [chunks[i]] == chunks[..i + 1];
      var key := Key(chunks[i].id, model, version);
      if key !in records || records[key].contentHash != Sha256(chunks[i].text) {
        changed := changed + [chunks[i]];
      }
    }
    assert chunks[..|chunks|] == chunks;
  }

  lemma OneVectorPerText(batch: seq<Chunk>, model: string)
    ensures var vectors := Embed(Texts(batch), model);
            |vectors| == |batch| && forall i :: 0 <= i < |batch| ==> vectors[i] == Vector(batch[i].text, model)
  {
  }

  /** The batch loop; `batches` is how many batches run before a crash, and `crashed` whether one happened. */
  method EmbedBatches(vectors: VectorRepository, changed: seq<Chunk>, model: string, version: string, batchSize: nat, batches: nat)
    returns (crashed: bool, embeddedChunks: nat)
    requires batchSize >= 1
    modifies vectors
    ensures embeddedChunks <= |changed| && (crashed <==> embeddedChunks < |changed|)
    ensures vectors.records == Upserted(old(vectors.records), changed[..embeddedChunks], model, version)
    ensures batches >= |changed| ==> !crashed
  {
    ghost var before := vectors.records;
    embeddedChunks := 0;
    var index := 0;
    var done := 0;
    while index < |changed|
      invariant embeddedChunks == (if index <= |changed| then index else |changed|)
      invariant vectors.records == Upserted(before, changed[..embeddedChunks], model, version)
      invariant done <= embeddedChunks
      decreases |changed| - index
    {
      if done == batches {
        return true, embeddedChunks;
      }
      var end := if index + batchSize <= |changed| then index + batchSize else |changed|;
      var batch := changed[index..end];
      var embedded := Embed(Texts(batch), model);
      OneVectorPerText(batch, model);
      vectors.Upsert(batch, embedded, model, version);
      BatchUpserted(before, changed, index, end, model, version);
      embeddedChunks := embeddedChunks + |batch|;
      index := index + batchSize;
      done := done + 1;
    }
    crashed := false;
  }

  method EmbedDocument(vectors: VectorRepository, chunks: seq<Chunk>, model: string, version: string, batchSize: nat, batches: nat)
    returns (crashed: bool, embeddedChunks: nat, contentHash: DocumentDigest)
    requires batchSize >= 1
    modifies vectors
    ensures var changed := Changed(chunks, old(vectors.records), model, version);
            if crashed then
              embeddedChunks < |changed| && vectors.records == Upserted(old(vectors.records), changed[..embeddedChunks], model, version)
            else
              embeddedChunks == |changed| && vectors.records == AfterEmbedding(old(vectors.records), chunks, model, version)
    ensures contentHash == HashDocumentChunks(chunks)
    ensures batches >= |chunks| ==> !crashed
  {
    contentHash := HashDocumentChunks(chunks);
    var changed := SelectChanged(chunks, vectors.records, model, version);
    ChangedShorter(chunks, vectors.records, model, version);
    crashed, embeddedChunks := EmbedBatches(vectors, changed, model, version, batchSize, batches);
    if !crashed {
      assert changed[..|changed|] == changed;
      vectors.DeleteStale(set c | c in chunks :: c.id, model, version);
    }
  }

  lemma {:induction false} ChangedShorter(chunks: seq<Chunk>, records: Records, model: string, version: string)
    ensures |Changed(chunks, records, model, version)| <= |chunks|
  {
    if chunks != [] {
      ChangedShorter(chunks[1..], records, model, version);
    }
  }

  // ----- incremental equals rebuild -----

  predicate DistinctIds(chunks: seq<Chunk>) {
    forall i, j :: 0 <= i < j < |chunks| ==> chunks[i].id != chunks[j].id
  }

  /** Every stored vector is the embedding of the text its hash stands for. */
  predicate Faithful(records: Records) {
    forall key :: key in records ==> records[key].vector == Vector(records[key].contentHash.text, key.model)
  }

  /** What search sees of a record. */
  datatype Indexed = Indexed(contentHash: Digest, vector: Vector)

  function ActiveIds(records: Records, model: string, version: string): set<string> {
    set key | key in records && key.model == model && key.version == version :: key.chunkId
  }

  /** The chunk ids, hashes and vectors stored for one model and version. */
  function Active(records: Records, model: string, version: string): map<string, Indexed> {
    map id | id in ActiveIds(records, model, version) ::
      Indexed(records[Key(id, model, version)].contentHash, records[Key(id, model, version)].vector)
  }

  /** Embedding every chunk afresh into an empty store. */
  function Rebuild(chunks: seq<Chunk>, model: string, version: string): map<string, Indexed> {
    Active(Upserted(map[], chunks, model, version), model, version)
  }

  lemma {:induction false} UpsertedFaithful(records: Records, batch: seq<Chunk>, model: string, version: string)
    requires Faithful(records)
    ensures Faithful(Upserted(records, batch, model, version))
  {
    if batch != [] {
      UpsertedFaithful(records, batch[..|batch| - 1], model, version);
    }
  }

  /** A key holds the record of the chunk with its id, if one was written, and what it held before otherwise. */
  lemma {:induction false} UpsertedAt(records: Records, batch: seq<Chunk>, model: string, version: string, key: Key)
    requires DistinctIds(batch)
    ensures var r := Upserted(records, batch, model, version);
            (forall c :: c in batch && key == Key(c.id, model, version) ==> key in r && r[key] == RecordFor(c, model)) &&
            ((forall c :: c in batch ==> key != Key(c.id, model, version)) ==>
               (key in r <==> key in records) && (key in records ==> r[key] == records[key]))
  {
    if batch != [] {
      var before, last := batch[..|batch| - 1], batch[|batch| - 1];
      UpsertedAt(records, before, model, version, key);
      forall c | c in batch
        ensures c in before || c == last
      {
        var i :| 0 <= i < |batch| && batch[i] == c;
        if i < |before| {
          assert before[i] == c;
        }
      }
      forall c | c in before
        ensures c.id != last.id
      {
        var i :| 0 <= i < |before| && before[i] == c;
        assert batch[i].id != batch[|batch| - 1].id;
      }
      assert forall c :: c in before ==> c in batch;
      assert last in batch;
    }
  }

  lemma {:induction false} ChangedMembers(chunks: seq<Chunk>, records: Records, model: string, version: string)
    requires DistinctIds(chunks)
    ensures var changed := Changed(chunks, records, model, version);
            DistinctIds(changed) && forall c :: c in changed <==> c in chunks && IsChanged(c, records, model, version)
  {
    if chunks != [] {
      ChangedMembers(chunks[1..], records, model, version);
      var rest := Changed(chunks[1..], records, model, version);
      forall c | c in rest
        ensures c.id != chunks[0].id
      {
        assert c in chunks[1..];
        var i :| 0 <= i < |chunks| - 1 && chunks[1..][i] == c;
        assert chunks[i + 1] == c;
      }
      assert chunks == [chunks[0]] + chunks[1..];
    }
  }

  /** One chunk id: after embedding it is stored exactly if it is a chunk's, and as that chunk. */
  lemma AfterEmbeddingAt(records: Records, chunks: seq<Chunk>, model: string, version: string, id: string)
    requires Faithful(records) && DistinctIds(chunks)
    ensures var key := Key(id, model, version);
            var r := AfterEmbedding(records, chunks, model, version);
            (key in r <==> id in Ids(chunks)) &&
            forall c :: c in chunks && c.id == id ==>
              key in r && r[key].contentHash == Sha256(c.text) && r[key].vector == Vector(c.text, model)
  {
    var changed := Changed(chunks, records, model, version);
    ChangedMembers(chunks, records, model, version);
    UpsertedAt(records, changed, model, version, Key(id, model, version));
    forall c | c in chunks && c.id == id
      ensures var key := Key(id, model, version);
              var r := AfterEmbedding(records, chunks, model, version);
              key in r && r[key].contentHash == Sha256(c.text) && r[key].vector == Vector(c.text, model)
    {
      if !IsChanged(c, records, model, version) {
        SameId(chunks, c);
      }
    }
  }

  lemma SameId(chunks: seq<Chunk>, c: Chunk)
    requires DistinctIds(chunks) && c in chunks
    ensures forall d :: d in chunks && d.id == c.id ==> d == c
  {
    forall d | d in chunks && d.id == c.id
      ensures d == c
    {
      var i, j :| 0 <= i < |chunks| && chunks[i] == c && 0 <= j < |chunks| && chunks[j] == d;
    }
  }

  lemma RebuildAt(chunks: seq<Chunk>, model: string, version: string, id: string)
    requires DistinctIds(chunks)
    ensures var key := Key(id, model, version);
            var r := Upserted(map[], chunks, model, version);
            (key in r <==> id in Ids(chunks)) && forall c :: c in chunks && c.id == id ==> key in r && r[key] == RecordFor(c, model)
  {
    UpsertedAt(map[], chunks, model, version, Key(id, model, version));
  }

  /** Incremental embedding of any faithful store gives exactly the vectors of a rebuild from nothing. */
  lemma IncrementalEqualsRebuild(records: Records, chunks: seq<Chunk>, model: string, version: string)
    requires Faithful(records) && DistinctIds(chunks)
    ensures Active(AfterEmbedding(records, chunks, model, version), model, version) == Rebuild(chunks, model, version)
  {
    var after := AfterEmbedding(records, chunks, model, version);
    var rebuilt := Upserted(map[], chunks, model, version);
    forall id
      ensures id in ActiveIds(after, model, version) <==> id in ActiveIds(rebuilt, model, version)
      ensures id in ActiveIds(after, model, version) ==>
                after[Key(id, model, version)].contentHash == rebuilt[Key(id, model, version)].contentHash &&
                after[Key(id, model, version)].vector == rebuilt[Key(id, model, version)].vector
    {
      AfterEmbeddingAt(records, chunks, model, version, id);
      RebuildAt(chunks, model, version, id);
      assert Key(id, model, version) in after <==> id in ActiveIds(after, model, version);
      assert Key(id, model, version) in rebuilt <==> id in ActiveIds(rebuilt, model, version);
      if id in Ids(chunks) {
        var c :| c in chunks && c.id == id;
      }
    }
  }

  /** The store after runs that crashed part-way: the k-th run wrote some first part of what it found changed. */
  function AfterCrashes(records: Records, runs: seq<(seq<Chunk>, nat)>, model: string, version: string): Records {
    if runs == [] then records
    else
      var before := AfterCrashes(records, runs[..|runs| - 1], model, version);
      var (chunks, written) := runs[|runs| - 1];
      var changed := Changed(chunks, before, model, version);
      Upserted(before, changed[..if written <= |changed| then written else |changed|], model, version)
  }

  lemma {:induction false} CrashesStayFaithful(records: Records, runs: seq<(seq<Chunk>, nat)>, model: string, version: string)
    requires Faithful(records)
    ensures Faithful(AfterCrashes(records, runs, model, version))
  {
    if runs != [] {
      CrashesStayFaithful(records, runs[..|runs| - 1], model, version);
      var before := AfterCrashes(records, runs[..|runs| - 1], model, version);
      var (chunks, written) := runs[|runs| - 1];
      var changed := Changed(chunks, before, model, version);
      UpsertedFaithful(before, changed[..if written <= |changed| then written else |changed|], model, version);
    }
  }

  /** However many runs crashed before, at whatever batch and on whatever content, a run that finishes equals a rebuild. */
  lemma RerunAfterCrashesEqualsRebuild(records: Records, runs: seq<(seq<Chunk>, nat)>, chunks: seq<Chunk>, model: string, version: string)
    requires Faithful(records) && DistinctIds(chunks)
    ensures Active(AfterEmbedding(AfterCrashes(records, runs, model, version), chunks, model, version), model, version) ==
            Rebuild(chunks, model, version)
  {
    CrashesStayFaithful(records, runs, model, version);
    IncrementalEqualsRebuild(AfterCrashes(records, runs, model, version), chunks, model, version);
  }

  /** Vectors of other models and versions are not touched. */
  lemma OtherVersionsUntouched(records: Records, chunks: seq<Chunk>, model: string, version: string, key: Key)
    requires DistinctIds(chunks) && (key.model != model || key.version != version)
    ensures var after := AfterEmbedding(records, chunks, model, version);
            (key in after <==> key in records) && (key in records ==> after[key] == records[key])
  {
    ChangedMembers(chunks, records, model, version);
    UpsertedAt(records, Changed(chunks, records, model, version), model, version, key);
  }

  // ----- planning -----

  datatype EmbeddingStatus = NotIndexed | QueuedForEmbedding | ProcessingEmbedding | CompletedEmbedding | FailedEmbedding | DisabledEmbedding

  datatype Metadata = Metadata(
    completed: bool, embeddingStatus: EmbeddingStatus, embeddingModel: string, embeddingVersion: string,
    embeddingDimensions: nat, embeddingContentHash: Option<DocumentDigest>)

  datatype Outcome = NotFound | NotEligible | UpToDate | WouldReindex

  predicate MetadataCurrent(d: Metadata, chunks: seq<Chunk>, model: string, version: string, dimensions: nat) {
    d.embeddingStatus == CompletedEmbedding && d.embeddingModel == model && d.embeddingVersion == version &&
    d.embeddingDimensions == dimensions && d.embeddingContentHash == Some(HashDocumentChunks(chunks))
  }

  function StaleIds(records: Records, chunks: seq<Chunk>, model: string, version: string): set<string> {
    ActiveIds(records, model, version) - Ids(chunks)
  }

  /** The dry run of planDocumentReindex. */
  function Plan(document: Option<Metadata>, chunks: seq<Chunk>, records: Records, model: string, version: string, dimensions: nat): Outcome {
    if document.None? then NotFound
    else if !document.value.completed then NotEligible
    else if MetadataCurrent(document.value, chunks, model, version, dimensions) &&
            |Changed(chunks, records, model, version)| == 0 && |StaleIds(records, chunks, model, version)| == 0 then UpToDate
    else WouldReindex
  }

  /**
   * For a document whose metadata is current the plan is UP_TO_DATE if and only if the worker would
   * embed nothing and leave every stored vector as it is.
   */
  lemma UpToDateIffNothingToDo(document: Metadata, chunks: seq<Chunk>, records: Records, model: string, version: string, dimensions: nat)
    requires document.completed
    ensures Plan(Some(document), chunks, records, model, version, dimensions) == UpToDate <==>
            MetadataCurrent(document, chunks, model, version, dimensions) &&
            |Changed(chunks, records, model, version)| == 0 && AfterEmbedding(records, chunks, model, version) == records
  {
    var stale := StaleIds(records, chunks, model, version);
    if |Changed(chunks, records, model, version)| == 0 {
      assert Upserted(records, [], model, version) == records;
      if stale == {} {
        forall key | key in records
          ensures !IsStale(key, Ids(chunks), model, version)
        {
          if key.model == model && key.version == version {
            assert key.chunkId in ActiveIds(records, model, version) && key.chunkId !in stale;
          }
        }
        assert WithoutStale(records, Ids(chunks), model, version) == records;
      } else {
        var id :| id in stale;
        assert Key(id, model, version) in records;
        assert Key(id, model, version) !in WithoutStale(records, Ids(chunks), model, version);
      }
    }
  }

  // ----- what the document's hash stands for -----

  predicate IndexSorted(chunks: seq<Chunk>) {
    forall i, j :: 0 <= i < j < |chunks| ==> chunks[i].index <= chunks[j].index
  }

  lemma FrontSorted(c: Chunk, rest: seq<Chunk>)
    requires IndexSorted(rest) && (rest != [] ==> c.index <= rest[0].index)
    ensures IndexSorted([c] + rest)
  {
  }

  lemma {:induction false} InsertKeepsOrder(c: Chunk, sorted: seq<Chunk>)
    requires IndexSorted(sorted)
    ensures var r := InsertByIndex(c, sorted);
            IndexSorted(r) && r != [] && (r[0] == c || (sorted != [] && r[0] == sorted[0] && sorted[0].index < c.index))
  {
    if sorted == [] || c.index <= sorted[0].index {
      FrontSorted(c, sorted);
    } else {
      InsertKeepsOrder(c, sorted[1..]);
      FrontSorted(sorted[0], InsertByIndex(c, sorted[1..]));
    }
  }

  lemma {:induction false} InsertKeepsChunks(c: Chunk, sorted: seq<Chunk>)
    ensures multiset(InsertByIndex(c, sorted)) == multiset(sorted) + multiset{c}
  {
    if sorted != [] && c.index > sorted[0].index {
      InsertKeepsChunks(c, sorted[1..]);
      assert sorted == [sorted[0]] + sorted[1..];
    }
  }

  /** The same chunks, in index order. */
  lemma {:induction false} SortSorts(chunks: seq<Chunk>)
    ensures IndexSorted(SortByIndex(chunks)) && multiset(SortByIndex(chunks)) == multiset(chunks)
  {
    if chunks != [] {
      SortSorts(chunks[1..]);
      InsertKeepsOrder(chunks[0], SortByIndex(chunks[1..]));
      InsertKeepsChunks(chunks[0], SortByIndex(chunks[1..]));
      assert chunks == [chunks[0]] + chunks[1..];
    }
  }

  /** Chunks in index order stay as they are, those of equal index too. */
  lemma {:induction false} SortOfSorted(chunks: seq<Chunk>)
    requires IndexSorted(chunks)
    ensures SortByIndex(chunks) == chunks
  {
    if chunks != [] {
      var rest := chunks[1..];
      assert forall i :: 0 <= i < |rest| ==> rest[i] == chunks[i + 1];
      SortOfSorted(rest);
      assert rest != [] ==> chunks[0].index <= rest[0].index;
      assert chunks == [chunks[0]] + rest;
    }
  }

  predicate SameTexts(a: seq<Chunk>, b: seq<Chunk>) {
    |a| == |b| && forall i :: 0 <= i < |a| ==> a[i].id == b[i].id && a[i].text == b[i].text
  }

  lemma {:induction false} PartsIff(a: seq<Chunk>, b: seq<Chunk>)
    ensures Parts(a) == Parts(b) <==> SameTexts(a, b)
  {
    if a != [] && b != [] {
      PartsIff(a[1..], b[1..]);
      assert Parts(a)[0] == (a[0].id, Sha256(a[0].text)) && Parts(b)[0] == (b[0].id, Sha256(b[0].text));
      assert Parts(a)[1..] == Parts(a[1..]) && Parts(b)[1..] == Parts(b[1..]);
      assert Parts(a) == [Parts(a)[0]] + Parts(a)[1..] && Parts(b) == [Parts(b)[0]] + Parts(b)[1..];
      if SameTexts(a, b) {
        assert SameTexts(a[1..], b[1..]);
      } else if SameTexts(a[1..], b[1..]) && a[0].id == b[0].id && a[0].text == b[0].text {
        forall i | 0 <= i < |a| ensures a[i].id == b[i].id && a[i].text == b[i].text {
          if i > 0 {
            assert a[1..][i - 1] == a[i] && b[1..][i - 1] == b[i];
          }
        }
      }
    }
  }

  /** What the worker writes into the metadata when it is done. */
  function CompletedMetadata(chunks: seq<Chunk>, model: string, version: string, dimensions: nat): Metadata {
    Metadata(true, CompletedEmbedding, model, version, dimensions, Some(HashDocumentChunks(chunks)))
  }

  /**
   * Metadata written for some chunks is current for others, both in index order, exactly if model, version and
   * dimensions are the same and the chunks have the same ids and texts in the same order; until then, or
   * after anything but a completion, it is not.
   */
  lemma MetadataCurrentIff(earlier: seq<Chunk>, chunks: seq<Chunk>, status: EmbeddingStatus, model: string, version: string, dimensions: nat,
                           newModel: string, newVersion: string, newDimensions: nat)
    requires IndexSorted(earlier) && IndexSorted(chunks)
    ensures MetadataCurrent(CompletedMetadata(earlier, model, version, dimensions).(embeddingStatus := status), chunks, newModel, newVersion, newDimensions)
            <==> status == CompletedEmbedding && model == newModel && version == newVersion && dimensions == newDimensions && SameTexts(earlier, chunks)
    ensures !MetadataCurrent(CompletedMetadata(earlier, model, version, dimensions).(embeddingContentHash := None), chunks, newModel, newVersion, newDimensions)
  {
    SortOfSorted(earlier);
    SortOfSorted(chunks);
    PartsIff(earlier, chunks);
  }

  /** What the plan says of a document that cannot be indexed, and what the queue answers. */
  lemma OutcomesOfPlanning(document: Option<Metadata>, chunks: seq<Chunk>, records: Records, model: string, version: string,
                           dimensions: nat, disabled: bool, queued: bool)
    ensures var plan := Plan(document, chunks, records, model, version, dimensions);
            (plan == NotFound <==> document.None?) && (plan == NotEligible <==> document.Some? && !document.value.completed)
    ensures var answer := Enqueue(document, chunks, model, version, dimensions, disabled, queued);
            (answer == NothingEligible <==> document.None? || !document.value.completed) &&
            (answer == Disabled <==> document.Some? && document.value.completed && disabled) &&
            (answer == AlreadyUpToDate <==> document.Some? && document.value.completed && !disabled &&
                                            MetadataCurrent(document.value, chunks, model, version, dimensions)) &&
            (answer in {AlreadyQueued, Enqueued} ==> (answer == AlreadyQueued <==> queued))
  {
  }

  // ----- reindexing for real -----

  datatype EnqueueOutcome = NothingEligible | Disabled | AlreadyUpToDate | Enqueued | AlreadyQueued

  /** `enqueueDocumentEmbedding`; `queued` says that the queue has a job for the document. */
  function Enqueue(document: Option<Metadata>, chunks: seq<Chunk>, model: string, version: string, dimensions: nat,
                   disabled: bool, queued: bool): EnqueueOutcome {
    if document.None? || !document.value.completed then NothingEligible
    else if disabled then Disabled
    else if MetadataCurrent(document.value, chunks, model, version, dimensions) then AlreadyUpToDate
    else if queued then AlreadyQueued
    else Enqueued
  }

  datatype ReindexOutcome = Planned(outcome: Outcome) | ReportsAlreadyQueued | ReportsQueued

  /** The real run: whatever the plan would reindex is handed to the queue, and reported as queued. */
  function Reindex(document: Option<Metadata>, chunks: seq<Chunk>, records: Records, model: string, version: string,
                   dimensions: nat, disabled: bool, queued: bool): ReindexOutcome {
    var plan := Plan(document, chunks, records, model, version, dimensions);
    if plan != WouldReindex then Planned(plan)
    else if Enqueue(document, chunks, model, version, dimensions, disabled, queued) == AlreadyQueued then ReportsAlreadyQueued
    else ReportsQueued
  }

  /**
   * A real reindex reports QUEUED although the queue was given nothing exactly if there is something
   * to reindex and either embedding is disabled, or the metadata is current while a vector is not.
   */
  lemma ReportsQueuedInVainIff(document: Option<Metadata>, chunks: seq<Chunk>, records: Records, model: string, version: string,
                               dimensions: nat, disabled: bool, queued: bool)
    requires Faithful(records) && DistinctIds(chunks)
    ensures Reindex(document, chunks, records, model, version, dimensions, disabled, queued) == ReportsQueued &&
            Enqueue(document, chunks, model, version, dimensions, disabled, queued) != Enqueued
            <==>
            document.Some? && document.value.completed &&
            if MetadataCurrent(document.value, chunks, model, version, dimensions)
            then Active(records, model, version) != Rebuild(chunks, model, version)
            else disabled
  {
    if document.Some? && document.value.completed {
      UpToDateIffNothingToDo(document.value, chunks, records, model, version, dimensions);
      IncrementalEqualsRebuild(records, chunks, model, version);
      NothingToDoIffRebuilt(records, chunks, model, version);
    }
  }

  lemma {:induction false} NothingChanged(chunks: seq<Chunk>, records: Records, model: string, version: string)
    requires forall c :: c in chunks ==> !IsChanged(c, records, model, version)
    ensures Changed(chunks, records, model, version) == []
  {
    if chunks != [] {
      assert chunks[0] in chunks;
      NothingChanged(chunks[1..], records, model, version);
    }
  }

  /** For instance when the vectors of a document whose metadata is current were lost, and whenever embedding is disabled. */
  lemma QueuedInVain(document: Metadata, chunks: seq<Chunk>, model: string, version: string, dimensions: nat, disabled: bool, queued: bool)
    requires document.completed && DistinctIds(chunks) && chunks != []
    requires disabled || MetadataCurrent(document, chunks, model, version, dimensions)
    ensures Reindex(Some(document), chunks, map[], model, version, dimensions, disabled, queued) == ReportsQueued
    ensures Enqueue(Some(document), chunks, model, version, dimensions, disabled, queued) != Enqueued
  {
    RebuildAt(chunks, model, version, chunks[0].id);
    assert chunks[0] in chunks && chunks[0].id in Ids(chunks);
    assert chunks[0].id in Rebuild(chunks, model, version);
    assert chunks[0].id !in Active(map[], model, version);
    ReportsQueuedInVainIff(Some(document), chunks, map[], model, version, dimensions, disabled, queued);
  }

  /** The worker has nothing to embed or to delete if and only if the store already is a rebuild. */
  lemma NothingToDoIffRebuilt(records: Records, chunks: seq<Chunk>, model: string, version: string)
    requires Faithful(records) && DistinctIds(chunks)
    ensures |Changed(chunks, records, model, version)| == 0 && AfterEmbedding(records, chunks, model, version) == records
            <==> Active(records, model, version) == Rebuild(chunks, model, version)
  {
    IncrementalEqualsRebuild(records, chunks, model, version);
    ChangedMembers(chunks, records, model, version);
    if Active(records, model, version) == Rebuild(chunks, model, version) {
      forall c | c in chunks
        ensures !IsChanged(c, records, model, version)
      {
        RebuildAt(chunks, model, version, c.id);
        var key := Key(c.id, model, version);
        assert c.id in Ids(chunks) && key in Upserted(map[], chunks, model, version);
        assert c.id in Rebuild(chunks, model, version);
        assert c.id in Active(records, model, version) && Active(records, model, version)[c.id].contentHash == Sha256(c.text);
      }
      NothingChanged(chunks, records, model, version);
      assert Upserted(records, [], model, version) == records;
      forall key | key in records
        ensures !IsStale(key, Ids(chunks), model, version)
      {
        if key.model == model && key.version == version {
          assert key.chunkId in Active(records, model, version) && key.chunkId in Rebuild(chunks, model, version);
          RebuildAt(chunks, model, version, key.chunkId);
        }
      }
      assert WithoutStale(records, Ids(chunks), model, version) == records;
    }
  }

  // ----- what incremental embedding does not refresh -----

  /** The whole records of one model and version, index and provenance included. */
  function ActiveRecords(records: Records, model: string, version: string): map<string, Record> {
    map id | id in ActiveIds(records, model, version) :: records[Key(id, model, version)]
  }

  /** The record stored for the chunk names the chunk's own place in the document. */
  predicate PlaceIsCurrent(c: Chunk, records: Records, model: string, version: string) {
    var key := Key(c.id, model, version);
    key in records && records[key].chunkIndex == c.index && records[key].provenance == c.provenance
  }

  /** A chunk that is not embedded again keeps its stored record. */
  lemma RecordAfterEmbedding(records: Records, chunks: seq<Chunk>, model: string, version: string, c: Chunk)
    requires Faithful(records) && DistinctIds(chunks) && c in chunks
    ensures var key := Key(c.id, model, version);
            var after := AfterEmbedding(records, chunks, model, version);
            key in after &&
            after[key] == if IsChanged(c, records, model, version) then RecordFor(c, model) else records[key]
  {
    var changed := Changed(chunks, records, model, version);
    ChangedMembers(chunks, records, model, version);
    UpsertedAt(records, changed, model, version, Key(c.id, model, version));
    SameId(chunks, c);
    assert c.id in Ids(chunks);
  }

  lemma SameActiveIds(records: Records, chunks: seq<Chunk>, model: string, version: string)
    requires Faithful(records) && DistinctIds(chunks)
    ensures ActiveIds(AfterEmbedding(records, chunks, model, version), model, version) == Ids(chunks)
    ensures ActiveIds(Upserted(map[], chunks, model, version), model, version) == Ids(chunks)
  {
    var after := AfterEmbedding(records, chunks, model, version);
    var rebuilt := Upserted(map[], chunks, model, version);
    forall id
      ensures id in ActiveIds(after, model, version) <==> id in Ids(chunks)
      ensures id in ActiveIds(rebuilt, model, version) <==> id in Ids(chunks)
    {
      AfterEmbeddingAt(records, chunks, model, version, id);
      RebuildAt(chunks, model, version, id);
      assert Key(id, model, version) in after <==> id in ActiveIds(after, model, version);
      assert Key(id, model, version) in rebuilt <==> id in ActiveIds(rebuilt, model, version);
    }
  }

  lemma OneRecordIff(records: Records, chunks: seq<Chunk>, model: string, version: string, c: Chunk)
    requires Faithful(records) && DistinctIds(chunks) && c in chunks
    ensures var key := Key(c.id, model, version);
            var after, rebuilt := AfterEmbedding(records, chunks, model, version), Upserted(map[], chunks, model, version);
            key in after && key in rebuilt &&
            (after[key] == rebuilt[key] <==> IsChanged(c, records, model, version) || PlaceIsCurrent(c, records, model, version))
  {
    RecordAfterEmbedding(records, chunks, model, version, c);
    RebuildAt(chunks, model, version, c.id);
  }

  lemma ActiveRecordIff(records: Records, chunks: seq<Chunk>, model: string, version: string, c: Chunk)
    requires Faithful(records) && DistinctIds(chunks) && c in chunks
    ensures var a := ActiveRecords(AfterEmbedding(records, chunks, model, version), model, version);
            var b := ActiveRecords(Upserted(map[], chunks, model, version), model, version);
            c.id in a && c.id in b &&
            (a[c.id] == b[c.id] <==> c in Changed(chunks, records, model, version) || PlaceIsCurrent(c, records, model, version))
  {
    SameActiveIds(records, chunks, model, version);
    ChangedMembers(chunks, records, model, version);
    assert c.id in Ids(chunks);
    OneRecordIff(records, chunks, model, version, c);
  }

  /**
   * Index and provenance included, incremental embedding equals a rebuild if and only if every chunk
   * that is not embedded again already has its own place in its stored record.
   */
  lemma WholeRecordsEqualRebuildIff(records: Records, chunks: seq<Chunk>, model: string, version: string)
    requires Faithful(records) && DistinctIds(chunks)
    ensures ActiveRecords(AfterEmbedding(records, chunks, model, version), model, version) ==
            ActiveRecords(Upserted(map[], chunks, model, version), model, version)
            <==>
            forall c :: c in chunks && c !in Changed(chunks, records, model, version) ==> PlaceIsCurrent(c, records, model, version)
  {
    var a := ActiveRecords(AfterEmbedding(records, chunks, model, version), model, version);
    var b := ActiveRecords(Upserted(map[], chunks, model, version), model, version);
    forall c | c in chunks
      ensures c.id in a && c.id in b && (a[c.id] == b[c.id] <==> c in Changed(chunks, records, model, version) || PlaceIsCurrent(c, records, model, version))
    {
      ActiveRecordIff(records, chunks, model, version, c);
    }
    SameActiveIds(records, chunks, model, version);
    SameRecordsIff(a, b, chunks);
  }

  lemma SameRecordsIff(a: map<string, Record>, b: map<string, Record>, chunks: seq<Chunk>)
    requires a.Keys == Ids(chunks) && b.Keys == Ids(chunks)
    ensures a == b <==> forall c :: c in chunks ==> c.id in a && c.id in b && a[c.id] == b[c.id]
  {
    if forall c :: c in chunks ==> c.id in a && c.id in b && a[c.id] == b[c.id] {
      forall id | id in a
        ensures id in b && a[id] == b[id]
      {
        var c :| c in chunks && c.id == id;
      }
    } else {
      var c :| c in chunks && !(c.id in a && c.id in b && a[c.id] == b[c.id]);
      assert c.id in Ids(chunks);
    }
  }

  lemma AfterEmbeddingFaithful(records: Records, chunks: seq<Chunk>, model: string, version: string)
    requires Faithful(records)
    ensures Faithful(AfterEmbedding(records, chunks, model, version))
  {
    UpsertedFaithful(records, Changed(chunks, records, model, version), model, version);
  }

  /** For instance when a chunk has moved since the store was last brought up to date, and its text is the same. */
  lemma MovedChunkKeepsOldPlace(records: Records, chunks: seq<Chunk>, i: nat, index: nat, provenance: Provenance, model: string, version: string)
    requires Faithful(records) && DistinctIds(chunks) && i < |chunks|
    requires IsChanged(chunks[i], records, model, version)
    requires index != chunks[i].index || provenance != chunks[i].provenance
    ensures var stored := AfterEmbedding(records, chunks, model, version);
            var moved := chunks[i := chunks[i].(index := index, provenance := provenance)];
            ActiveRecords(AfterEmbedding(stored, moved, model, version), model, version) !=
            ActiveRecords(Upserted(map[], moved, model, version), model, version)
  {
    var stored := AfterEmbedding(records, chunks, model, version);
    var c := chunks[i].(index := index, provenance := provenance);
    var moved := chunks[i := c];
    AfterEmbeddingFaithful(records, chunks, model, version);
    RecordAfterEmbedding(records, chunks, model, version, chunks[i]);
    ChangedMembers(moved, stored, model, version);
    WholeRecordsEqualRebuildIff(stored, moved, model, version);
    assert moved[i] == c && c in moved && !IsChanged(c, stored, model, version) && !PlaceIsCurrent(c, stored, model, version);
  }
}
