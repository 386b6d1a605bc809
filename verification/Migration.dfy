/**
 * Document migration: each document's objects are copied to the target unless an equal object is
 * there already, then its metadata is created.  A dry run makes the same decisions without writing.
 */
module Migration {
  import opened Wrappers

  datatype Kind = OriginalObject | TextObject | ChunksObject | HistoryObject

  type ObjectKey = (Kind, string)

  type Objects = map<ObjectKey, string>

  /** SHA-256, taken to be injective. */
  datatype Checksum = Sha256(data: string)

  datatype Document = Document(id: string, storedName: string)

  /** `metadata` holds live and deleted entries alike, by document id. */
  datatype Target = Target(objects: Objects, metadata: map<string, Checksum>)

  datatype Report = Report(migrated: seq<string>, skipped: seq<string>, failed: seq<string>, objectsCopied: nat)

  const EmptyReport := Report([], [], [], 0)

  const HISTORY: ObjectKey := (HistoryObject, "knowledge-history.json")

  // ----- one object -----

  /** `storage.read` with an expected checksum throws when another object is stored under the key. */
  predicate Conflicts(objects: Objects, key: ObjectKey, data: string) {
    key in objects && Sha256(objects[key]) != Sha256(data)
  }

  /** Nothing to copy: the source has no such object, or the target has it. */
  predicate Present(objects: Objects, source: Objects, key: ObjectKey) {
    key !in source || key in objects
  }

  function Copied(objects: Objects, source: Objects, key: ObjectKey, dryRun: bool): Objects {
    if Present(objects, source, key) || dryRun then objects else objects[key := source[key]]
  }

  predicate Blocked(objects: Objects, source: Objects, key: ObjectKey) {
    key in source && Conflicts(objects, key, source[key])
  }

  function Count(objects: Objects, source: Objects, key: ObjectKey): nat {
    if Present(objects, source, key) then 0 else 1
  }

  // ----- one document -----

  function OriginalKey(d: Document): ObjectKey {
    (OriginalObject, d.storedName)
  }

  function TextKey(d: Document): ObjectKey {
    (TextObject, d.id + ".txt")
  }

  function ChunksKey(d: Document): ObjectKey {
    (ChunksObject, d.id + ".json")
  }

  datatype Outcome = Failed | Skipped | Migrated(copied: nat)

  predicate MetadataConflicts(d: Document, source: Objects, target: Target) {
    OriginalKey(d) in source && d.id in target.metadata && target.metadata[d.id] != Sha256(source[OriginalKey(d)])
  }

  /** What the report says of a document. */
  function OutcomeOf(d: Document, source: Objects, target: Target): Outcome {
    var o := target.objects;
    if OriginalKey(d) !in source || MetadataConflicts(d, source, target) ||
       Blocked(o, source, OriginalKey(d)) || Blocked(o, source, TextKey(d)) || Blocked(o, source, ChunksKey(d)) then Failed
    else
      var copied := Count(o, source, OriginalKey(d)) + Count(o, source, TextKey(d)) + Count(o, source, ChunksKey(d));
      if d.id in target.metadata && copied == 0 then Skipped else Migrated(copied)
  }

  /** What a real run writes: objects up to the first conflict, and the metadata if there is none. */
  function AfterDocument(d: Document, source: Objects, target: Target): Target {
    if OriginalKey(d) !in source || MetadataConflicts(d, source, target) || Blocked(target.objects, source, OriginalKey(d)) then target
    else
      var o1 := Copied(target.objects, source, OriginalKey(d), false);
      if Blocked(o1, source, TextKey(d)) then target.(objects := o1)
      else
        var o2 := Copied(o1, source, TextKey(d), false);
        if Blocked(o2, source, ChunksKey(d)) then target.(objects := o2)
        else
          var o3 := Copied(o2, source, ChunksKey(d), false);
          Target(o3, if d.id in target.metadata then target.metadata else target.metadata[d.id := Sha256(source[OriginalKey(d)])])
  }

  function Noted(r: Report, d: Document, outcome: Outcome): Report {
    match outcome
    case Failed => r.(failed := r.failed + [d.id])
    case Skipped => r.(skipped := r.skipped + [d.id])
    case Migrated(copied) => r.(migrated := r.migrated + [d.id], objectsCopied := r.objectsCopied + copied)
  }

  // ----- all documents, then the history -----

  function DryReport(documents: seq<Document>, source: Objects, target: Target): Report {
    if documents == [] then EmptyReport
    else
      var d := documents[|documents| - 1];
      Noted(DryReport(documents[..|documents| - 1], source, target), d, OutcomeOf(d, source, target))
  }

  function RealTarget(documents: seq<Document>, source: Objects, target: Target): Target {
    if documents == [] then target
    else AfterDocument(documents[|documents| - 1], source, RealTarget(documents[..|documents| - 1], source, target))
  }

  function RealReport(documents: seq<Document>, source: Objects, target: Target): Report {
    if documents == [] then EmptyReport
    else
      var before := documents[..|documents| - 1];
      var d := documents[|documents| - 1];
      Noted(RealReport(before, source, target), d, OutcomeOf(d, source, RealTarget(before, source, target)))
  }

  function WithHistory(r: Report, source: Objects, objects: Objects): Report {
    if Blocked(objects, source, HISTORY) then r.(failed := r.failed + ["knowledge-history"])
    else r.(objectsCopied := r.objectsCopied + Count(objects, source, HISTORY))
  }

  function FinalReport(documents: seq<Document>, source: Objects, target: Target, dryRun: bool): Report {
    if dryRun then WithHistory(DryReport(documents, source, target), source, target.objects)
    else WithHistory(RealReport(documents, source, target), source, RealTarget(documents, source, target).objects)
  }

  function FinalTarget(documents: seq<Document>, source: Objects, target: Target, dryRun: bool): Target {
    if dryRun then target
    else
      var t := RealTarget(documents, source, target);
      if Blocked(t.objects, source, HISTORY) then t else t.(objects := Copied(t.objects, source, HISTORY, false))
  }

  // ----- the program -----

  class TargetServices {
    var objects: Objects
    var metadata: map<string, Checksum>

    constructor (target: Target)
      ensures Contents() == target
    {
      objects := target.objects;
      metadata := target.metadata;
    }

    function Contents(): Target
      reads this
    {
      Target(objects, metadata)
    }

    /** `Err` is a thrown checksum mismatch; `Ok` says whether an object was, or would be, copied. */
    method CopyObject(source: Objects, key: ObjectKey, dryRun: bool) returns (r: Result<bool, bool>)
      requires key in source
      modifies this`objects
      ensures r == if Blocked(old(objects), source, key) then Err(true) else Ok(Count(old(objects), source, key) == 1)
      ensures objects == if r.Err? then old(objects) else Copied(old(objects), source, key, dryRun)
    {
      var data := source[key];
      if key in objects {
        if Sha256(objects[key]) != Sha256(data) {
          return Err(true);
        }
        return Ok(false);
      }
      if dryRun {
        return Ok(true);
      }
      objects := objects[key := data];
      return Ok(true);
    }

    method MigrateProcessingObjects(d: Document, source: Objects, dryRun: bool) returns (r: Result<nat, bool>)
      modifies this`objects
      ensures var o1 := old(objects);
              var o2 := Copied(o1, source, TextKey(d), dryRun);
              if Blocked(o1, source, TextKey(d)) then r.Err? && objects == o1
              else if Blocked(o2, source, ChunksKey(d)) then r.Err? && objects == o2
              else
                r == Ok(Count(o1, source, TextKey(d)) + Count(o2, source, ChunksKey(d))) &&
                objects == Copied(o2, source, ChunksKey(d), dryRun)
    {
      var copied := 0;
      if TextKey(d) in source {
        var text := CopyObject(source, TextKey(d), dryRun);
        if text.Err? {
          return Err(true);
        }
        copied := copied + if text.value then 1 else 0;
      }
      if ChunksKey(d) in source {
        var chunks := CopyObject(source, ChunksKey(d), dryRun);
        if chunks.Err? {
          return Err(true);
        }
        copied := copied + if chunks.value then 1 else 0;
      }
      return Ok(copied);
    }

    method MigrateDocument(d: Document, source: Objects, dryRun: bool) returns (outcome: Outcome)
      modifies this
      ensures outcome == OutcomeOf(d, source, old(Contents()))
      ensures Contents() == if dryRun then old(Contents()) else AfterDocument(d, source, old(Contents()))
    {
      if OriginalKey(d) !in source {
        return Failed;
      }
      var checksum := Sha256(source[OriginalKey(d)]);
      var known := d.id in metadata;
      if known && metadata[d.id] != checksum {
        return Failed;
      }
      var original := CopyObject(source, OriginalKey(d), dryRun);
      if original.Err? {
        return Failed;
      }
      var copied := if original.value then 1 else 0;
      var others := MigrateProcessingObjects(d, source, dryRun);
      if others.Err? {
        return Failed;
      }
      copied := copied + others.value;
      if !known && !dryRun {
        metadata := metadata[d.id := checksum];
      }
      return if known && copied == 0 then Skipped else Migrated(copied);
    }

    method MigrateDocuments(documents: seq<Document>, source: Objects, dryRun: bool) returns (report: Report)
      modifies this
      ensures report == FinalReport(documents, source, old(Contents()), dryRun)
      ensures Contents() == FinalTarget(documents, source, old(Contents()), dryRun)
    {
      report := EmptyReport;
      for i := 0 to |documents|
        invariant Contents() == if dryRun then old(Contents()) else RealTarget(documents[..i], source, old(Contents()))
        invariant report == if dryRun then DryReport(documents[..i], source, old(Contents()))
                            else RealReport(documents[..i], source, old(Contents()))
      {
        assert documents[..i + 1][..i] == documents[..i];
        var outcome := MigrateDocument(documents[i], source, dryRun);
        report := Noted(report, documents[i], outcome);
      }
      assert documents[..|documents|] == documents;
      if HISTORY in source {
        var history := CopyObject(source, HISTORY, dryRun);
        if history.Err? {
          report := report.(failed := report.failed + ["knowledge-history"]);
        } else if history.value {
          report := report.(objectsCopied := report.objectsCopied + 1);
        }
      }
    }
  }

  // ----- documents do not touch each other's objects -----

  predicate DistinctIds(documents: seq<Document>) {
    forall i, j :: 0 <= i < j < |documents| ==> documents[i].id != documents[j].id
  }

  predicate SameAt(a: Objects, b: Objects, key: ObjectKey) {
    (key in a <==> key in b) && (key in a ==> a[key] == b[key])
  }

  /** The two targets agree on everything document d looks at. */
  predicate SameFor(d: Document, a: Target, b: Target) {
    SameAt(a.objects, b.objects, OriginalKey(d)) && SameAt(a.objects, b.objects, TextKey(d)) &&
    SameAt(a.objects, b.objects, ChunksKey(d)) &&
    (d.id in a.metadata <==> d.id in b.metadata) && (d.id in a.metadata ==> a.metadata[d.id] == b.metadata[d.id])
  }

  lemma SuffixDistinct(a: string, b: string, suffix: string)
    requires a != b
    ensures a + suffix != b + suffix
  {
    assert a == (a + suffix)[..|a|];
    assert b == (b + suffix)[..|b|];
  }

  lemma {:induction false} HistoryUntouched(documents: seq<Document>, source: Objects, target: Target)
    ensures SameAt(RealTarget(documents, source, target).objects, target.objects, HISTORY)
  {
    if documents != [] {
      var before := documents[..|documents| - 1];
      HistoryUntouched(before, source, target);
      HistoryUntouchedByOne(documents[|documents| - 1], source, RealTarget(before, source, target));
    }
  }

  lemma HistoryUntouchedByOne(d: Document, source: Objects, target: Target)
    ensures SameAt(AfterDocument(d, source, target).objects, target.objects, HISTORY)
  {
  }

  lemma OutcomeIsLocal(d: Document, source: Objects, a: Target, b: Target)
    requires SameFor(d, a, b)
    ensures OutcomeOf(d, source, a) == OutcomeOf(d, source, b)
  {
  }

  // ----- the dry run predicts the real run -----

  /** A run that starts at this target copies the document's original, whatever becomes of its other objects. */
  predicate CopiesOriginal(d: Document, source: Objects, target: Target) {
    OriginalKey(d) in source && OriginalKey(d) !in target.objects && !MetadataConflicts(d, source, target)
  }

  /** Documents i and j share an original that is copied for i; the dry run counts it for j once more. */
  predicate CountedTwice(documents: seq<Document>, i: nat, j: nat, source: Objects, target: Target) {
    i < j < |documents| && documents[i].storedName == documents[j].storedName &&
    CopiesOriginal(documents[i], source, target) && CopiesOriginal(documents[j], source, target) &&
    !Blocked(target.objects, source, TextKey(documents[j])) && !Blocked(target.objects, source, ChunksKey(documents[j]))
  }

  /** All that d looks at except its original. */
  predicate SameButOriginal(d: Document, a: Target, b: Target) {
    SameAt(a.objects, b.objects, TextKey(d)) && SameAt(a.objects, b.objects, ChunksKey(d)) &&
    (d.id in a.metadata <==> d.id in b.metadata) && (d.id in a.metadata ==> a.metadata[d.id] == b.metadata[d.id])
  }

  lemma OthersShareOnlyOriginal(d: Document, other: Document, source: Objects, target: Target)
    requires d.id != other.id
    ensures SameButOriginal(other, AfterDocument(d, source, target), target)
  {
    SuffixDistinct(d.id, other.id, ".txt");
    SuffixDistinct(d.id, other.id, ".json");
  }

  lemma OriginalAfterOne(d: Document, other: Document, source: Objects, target: Target)
    ensures var key := OriginalKey(other);
            var after := AfterDocument(d, source, target).objects;
            if d.storedName == other.storedName && CopiesOriginal(d, source, target)
            then key in after && after[key] == source[key]
            else SameAt(after, target.objects, key)
  {
  }

  /** Some document before has copied the original that d is stored under. */
  predicate CopiedBefore(documents: seq<Document>, d: Document, source: Objects, target: Target) {
    exists i :: 0 <= i < |documents| && documents[i].storedName == d.storedName && CopiesOriginal(documents[i], source, target)
  }

  lemma {:induction false} OriginalAfterRun(documents: seq<Document>, d: Document, source: Objects, target: Target)
    requires DistinctIds(documents) && forall i :: 0 <= i < |documents| ==> documents[i].id != d.id
    ensures var t := RealTarget(documents, source, target);
            SameButOriginal(d, t, target) &&
            if CopiedBefore(documents, d, source, target)
            then OriginalKey(d) !in target.objects && OriginalKey(d) in t.objects && OriginalKey(d) in source && t.objects[OriginalKey(d)] == source[OriginalKey(d)]
            else SameAt(t.objects, target.objects, OriginalKey(d))
  {
    if documents != [] {
      var before, last := documents[..|documents| - 1], documents[|documents| - 1];
      var t := RealTarget(before, source, target);
      OriginalAfterRun(before, d, source, target);
      OriginalAfterRun(before, last, source, target);
      OthersShareOnlyOriginal(last, d, source, t);
      OriginalAfterOne(last, d, source, t);
      assert CopiedBefore(documents, d, source, target) <==>
          CopiedBefore(before, d, source, target) || (last.storedName == d.storedName && CopiesOriginal(last, source, target)) by {
        assert forall i :: 0 <= i < |before| ==> before[i] == documents[i];
      }
    }
  }

  function CopiedBy(outcome: Outcome): nat {
    if outcome.Migrated? then outcome.copied else 0
  }

  /** A document whose original was copied before it: one object less, or the same failure. */
  lemma OneObjectLess(d: Document, source: Objects, t: Target, target: Target)
    requires SameButOriginal(d, t, target) && OriginalKey(d) !in target.objects
    requires OriginalKey(d) in source && OriginalKey(d) in t.objects && t.objects[OriginalKey(d)] == source[OriginalKey(d)]
    ensures var dry, done := OutcomeOf(d, source, target), OutcomeOf(d, source, t);
            (dry == Failed <==> MetadataConflicts(d, source, target) ||
                                Blocked(target.objects, source, TextKey(d)) || Blocked(target.objects, source, ChunksKey(d))) &&
            if dry == Failed then done == Failed else CopiedBy(dry) == CopiedBy(done) + 1
  {
  }

  lemma OutcomesAgreeIff(documents: seq<Document>, source: Objects, target: Target)
    requires DistinctIds(documents) && documents != []
    ensures var j := |documents| - 1;
            var dry := OutcomeOf(documents[j], source, target);
            var done := OutcomeOf(documents[j], source, RealTarget(documents[..j], source, target));
            CopiedBy(dry) >= CopiedBy(done) && (dry == done <==> CopiedBy(dry) == CopiedBy(done)) &&
            (dry == done <==> forall i: nat :: !CountedTwice(documents, i, j, source, target))
  {
    var j := |documents| - 1;
    var before, d := documents[..j], documents[j];
    var t := RealTarget(before, source, target);
    OriginalAfterRun(before, d, source, target);
    assert forall i :: 0 <= i < j ==> before[i] == documents[i];
    if CopiedBefore(before, d, source, target) {
      var i :| 0 <= i < |before| && before[i].storedName == d.storedName && CopiesOriginal(before[i], source, target);
      assert OriginalKey(before[i]) == OriginalKey(d);
      OneObjectLess(d, source, t, target);
      assert OutcomeOf(d, source, target) != Failed ==> CountedTwice(documents, i, j, source, target);
    } else {
      OutcomeIsLocal(d, source, t, target);
    }
  }

  /** The dry run never counts too little, and the two reports differ at all only if it counts too much. */
  lemma {:induction false} ReportsAgreeIff(documents: seq<Document>, source: Objects, target: Target)
    requires DistinctIds(documents)
    ensures var dry, done := DryReport(documents, source, target), RealReport(documents, source, target);
            dry.objectsCopied >= done.objectsCopied && (dry == done <==> dry.objectsCopied == done.objectsCopied) &&
            (dry == done <==> forall i: nat, j: nat :: !CountedTwice(documents, i, j, source, target))
  {
    if documents != [] {
      var last := |documents| - 1;
      var before := documents[..last];
      ReportsAgreeIff(before, source, target);
      OutcomesAgreeIff(documents, source, target);
      forall i: nat, j: nat | j != last
        ensures CountedTwice(documents, i, j, source, target) <==> CountedTwice(before, i, j, source, target)
      {
        assert j < last && i < j ==> before[i] == documents[i] && before[j] == documents[j];
      }
    }
  }

  /**
   * With distinct ids, the dry run's report differs from the real run's if and only if two documents
   * share a stored name whose object is missing in the target, both pass the metadata check, and the
   * later one's text and chunks are not blocked.
   */
  lemma DryRunPredictsIff(documents: seq<Document>, source: Objects, target: Target)
    requires DistinctIds(documents)
    ensures FinalReport(documents, source, target, true) == FinalReport(documents, source, target, false)
            <==> forall i: nat, j: nat :: !CountedTwice(documents, i, j, source, target)
  {
    ReportsAgreeIff(documents, source, target);
    HistoryUntouched(documents, source, target);
  }

  /** For instance any two documents that share a stored name, with nothing in the target yet. */
  lemma SharedNameMiscounts(a: Document, b: Document, data: string)
    requires a.id != b.id && a.storedName == b.storedName
    ensures var source: Objects := map[OriginalKey(a) := data];
            FinalReport([a, b], source, Target(map[], map[]), true) != FinalReport([a, b], source, Target(map[], map[]), false)
  {
    var source: Objects := map[OriginalKey(a) := data];
    assert CountedTwice([a, b], 0, 1, source, Target(map[], map[]));
    DryRunPredictsIff([a, b], source, Target(map[], map[]));
  }

  /** So with distinct ids and stored names a dry run changes nothing and reports exactly what the real run will. */
  lemma DryRunPredictsRealRun(documents: seq<Document>, source: Objects, target: Target)
    requires DistinctIds(documents)
    requires forall i, j :: 0 <= i < j < |documents| ==> documents[i].storedName != documents[j].storedName
    ensures FinalTarget(documents, source, target, true) == target
    ensures FinalReport(documents, source, target, true) == FinalReport(documents, source, target, false)
  {
    DryRunPredictsIff(documents, source, target);
  }

  // ----- a second run has nothing to do -----

  /** Migrating d again changes nothing and copies nothing. */
  predicate Settled(d: Document, source: Objects, target: Target) {
    AfterDocument(d, source, target) == target && !OutcomeOf(d, source, target).Migrated?
  }

  lemma MigratedIsSettled(d: Document, source: Objects, target: Target)
    ensures Settled(d, source, AfterDocument(d, source, target))
  {
  }

  lemma SettledIsLocal(d: Document, source: Objects, a: Target, b: Target)
    requires SameFor(d, a, b) && Settled(d, source, a)
    ensures Settled(d, source, b)
  {
    OutcomeIsLocal(d, source, a, b);
  }

  /** Nothing d looks at changed, except that its original may have been copied. */
  predicate Grown(d: Document, source: Objects, a: Target, b: Target) {
    SameButOriginal(d, b, a) &&
    (SameAt(b.objects, a.objects, OriginalKey(d)) ||
     (OriginalKey(d) !in a.objects && OriginalKey(d) in source && OriginalKey(d) in b.objects && b.objects[OriginalKey(d)] == source[OriginalKey(d)]))
  }

  lemma OthersGrow(d: Document, other: Document, source: Objects, target: Target)
    requires d.id != other.id
    ensures Grown(other, source, target, AfterDocument(d, source, target))
  {
    OthersShareOnlyOriginal(d, other, source, target);
    OriginalAfterOne(d, other, source, target);
  }

  lemma SettledGrows(d: Document, source: Objects, a: Target, b: Target)
    requires Grown(d, source, a, b) && Settled(d, source, a)
    ensures Settled(d, source, b)
  {
  }

  predicate AllSettled(documents: seq<Document>, source: Objects, target: Target) {
    forall i :: 0 <= i < |documents| ==> Settled(documents[i], source, target)
  }

  lemma {:induction false} RunSettlesAll(documents: seq<Document>, source: Objects, target: Target)
    requires DistinctIds(documents)
    ensures AllSettled(documents, source, RealTarget(documents, source, target))
  {
    if documents != [] {
      var before, d := documents[..|documents| - 1], documents[|documents| - 1];
      var t := RealTarget(before, source, target);
      RunSettlesAll(before, source, target);
      MigratedIsSettled(d, source, t);
      forall i | 0 <= i < |before|
        ensures Settled(documents[i], source, AfterDocument(d, source, t))
      {
        assert Settled(before[i], source, t) && documents[i].id != documents[|documents| - 1].id;
        OthersGrow(d, documents[i], source, t);
        SettledGrows(documents[i], source, t, AfterDocument(d, source, t));
      }
    }
  }

  lemma {:induction false} SettledRunIsIdle(documents: seq<Document>, source: Objects, target: Target)
    requires AllSettled(documents, source, target)
    ensures RealTarget(documents, source, target) == target
    ensures RealReport(documents, source, target).migrated == [] && RealReport(documents, source, target).objectsCopied == 0
  {
    if documents != [] {
      SettledRunIsIdle(documents[..|documents| - 1], source, target);
      assert Settled(documents[|documents| - 1], source, target);
    }
  }

  /** The history object is not a document's, so copying it unsettles nobody. */
  lemma HistoryUnsettlesNobody(d: Document, source: Objects, target: Target, objects: Objects)
    requires Settled(d, source, target) && (forall key: ObjectKey :: key.0 != HistoryObject ==> SameAt(objects, target.objects, key))
    ensures Settled(d, source, target.(objects := objects))
  {
    var after := target.(objects := objects);
    assert SameFor(d, target, after);
    SettledIsLocal(d, source, target, after);
  }

  /** A second real run copies zero objects, migrates nothing and leaves the target as it is. */
  lemma SecondRunDoesNothing(documents: seq<Document>, source: Objects, target: Target)
    requires DistinctIds(documents)
    ensures var t := FinalTarget(documents, source, target, false);
            var report := FinalReport(documents, source, t, false);
            report.migrated == [] && report.objectsCopied == 0 && FinalTarget(documents, source, t, false) == t
  {
    var t := RealTarget(documents, source, target);
    var final := FinalTarget(documents, source, target, false);
    RunSettlesAll(documents, source, target);
    forall i | 0 <= i < |documents|
      ensures Settled(documents[i], source, final)
    {
      HistoryUnsettlesNobody(documents[i], source, t, final.objects);
    }
    SettledRunIsIdle(documents, source, final);
  }

  // ----- what a report promises -----

  /** The target holds the document: equal objects for all the source has, and the original's checksum. */
  predicate Arrived(d: Document, source: Objects, target: Target) {
    OriginalKey(d) in source && d.id in target.metadata && target.metadata[d.id] == Sha256(source[OriginalKey(d)]) &&
    forall key :: key in {OriginalKey(d), TextKey(d), ChunksKey(d)} && key in source ==>
      key in target.objects && target.objects[key] == source[key]
  }

  lemma ArrivedUnlessFailed(d: Document, source: Objects, target: Target)
    ensures OutcomeOf(d, source, target) != Failed ==> Arrived(d, source, AfterDocument(d, source, target))
  {
  }

  lemma ArrivedGrows(d: Document, source: Objects, a: Target, b: Target)
    requires Grown(d, source, a, b) && Arrived(d, source, a)
    ensures Arrived(d, source, b)
  {
  }

  lemma FailsAlike(d: Document, source: Objects, a: Target, b: Target)
    requires Grown(d, source, a, b) && OutcomeOf(d, source, a) != Failed
    ensures OutcomeOf(d, source, b) != Failed
  {
  }

  /** After a real run every document that did not fail is in the target, whole. */
  lemma {:induction false} NotFailedMeansArrived(documents: seq<Document>, source: Objects, target: Target, i: nat)
    requires DistinctIds(documents) && i < |documents|
    ensures OutcomeOf(documents[i], source, target) != Failed ==> Arrived(documents[i], source, RealTarget(documents, source, target))
  {
    var before, d := documents[..|documents| - 1], documents[|documents| - 1];
    var t := RealTarget(before, source, target);
    if OutcomeOf(documents[i], source, target) != Failed {
      if i == |before| {
        OriginalAfterRun(before, d, source, target);
        FailsAlike(d, source, target, t);
        ArrivedUnlessFailed(d, source, t);
      } else {
        NotFailedMeansArrived(before, source, target, i);
        OthersGrow(d, documents[i], source, t);
        ArrivedGrows(documents[i], source, t, AfterDocument(d, source, t));
      }
    }
  }

  // ----- what the report says -----

  predicate Differs(source: Objects, objects: Objects, key: ObjectKey) {
    key in source && key in objects && objects[key] != source[key]
  }

  /** The original is missing, the metadata is of another original, or another object is in the place of one. */
  predicate FailsOver(d: Document, source: Objects, t: Target) {
    (OriginalObject, d.storedName) !in source ||
    (d.id in t.metadata && t.metadata[d.id].data != source[(OriginalObject, d.storedName)]) ||
    Differs(source, t.objects, (OriginalObject, d.storedName)) || Differs(source, t.objects, (TextObject, d.id + ".txt")) ||
    Differs(source, t.objects, (ChunksObject, d.id + ".json"))
  }

  /** The target has the document's metadata and all of its objects. */
  predicate AlreadyThere(d: Document, source: Objects, t: Target) {
    d.id in t.metadata && (OriginalObject, d.storedName) in t.objects &&
    ((TextObject, d.id + ".txt") in source ==> (TextObject, d.id + ".txt") in t.objects) &&
    ((ChunksObject, d.id + ".json") in source ==> (ChunksObject, d.id + ".json") in t.objects)
  }

  /** A document is reported failed, skipped or migrated by what the target held when its turn came. */
  predicate ReportedRight(r: Report, d: Document, source: Objects, t: Target) {
    (d.id in r.failed <==> FailsOver(d, source, t)) &&
    (d.id in r.skipped <==> !FailsOver(d, source, t) && AlreadyThere(d, source, t)) &&
    (d.id in r.migrated <==> !FailsOver(d, source, t) && !AlreadyThere(d, source, t))
  }

  predicate Unreported(r: Report, id: string) {
    id !in r.failed && id !in r.skipped && id !in r.migrated
  }

  lemma NotedRight(r: Report, d: Document, source: Objects, t: Target)
    requires Unreported(r, d.id)
    ensures ReportedRight(Noted(r, d, OutcomeOf(d, source, t)), d, source, t)
  {
    forall key | Differs(source, t.objects, key)
      ensures Blocked(t.objects, source, key)
    {
      assert Sha256(t.objects[key]).data == t.objects[key];
    }
  }

  lemma OthersReported(r: Report, d: Document, outcome: Outcome, id: string)
    requires d.id != id
    ensures var after := Noted(r, d, outcome);
            (id in after.failed <==> id in r.failed) && (id in after.skipped <==> id in r.skipped) && (id in after.migrated <==> id in r.migrated)
  {
  }

  lemma {:induction false} StrangersUnreported(documents: seq<Document>, source: Objects, target: Target, id: string)
    requires forall i :: 0 <= i < |documents| ==> documents[i].id != id
    ensures Unreported(RealReport(documents, source, target), id)
  {
    if documents != [] {
      var before, d := documents[..|documents| - 1], documents[|documents| - 1];
      StrangersUnreported(before, source, target, id);
      OthersReported(RealReport(before, source, target), d, OutcomeOf(d, source, RealTarget(before, source, target)), id);
    }
  }

  /**
   * With distinct ids each document is in exactly one list of a real run's report: failed, skipped or
   * migrated, as its objects and metadata stood when its turn came.
   */
  lemma {:induction false} ReportIsRight(documents: seq<Document>, source: Objects, target: Target, i: nat)
    requires DistinctIds(documents) && i < |documents|
    ensures ReportedRight(RealReport(documents, source, target), documents[i], source, RealTarget(documents[..i], source, target))
  {
    var n := |documents| - 1;
    var before, last := documents[..n], documents[n];
    var t := RealTarget(before, source, target);
    if i == n {
      StrangersUnreported(before, source, target, last.id);
      NotedRight(RealReport(before, source, target), last, source, t);
    } else {
      ReportIsRight(before, source, target, i);
      assert before[..i] == documents[..i];
      OthersReported(RealReport(before, source, target), last, OutcomeOf(last, source, t), documents[i].id);
    }
  }

  /** The history fails if another one is in its place, and counts as copied if it was missing. */
  lemma HistoryReported(documents: seq<Document>, source: Objects, target: Target, dryRun: bool)
    ensures var r := FinalReport(documents, source, target, dryRun);
            var earlier := if dryRun then DryReport(documents, source, target) else RealReport(documents, source, target);
            var objects := if dryRun then target.objects else RealTarget(documents, source, target).objects;
            var history := (HistoryObject, "knowledge-history.json");
            r.migrated == earlier.migrated && r.skipped == earlier.skipped &&
            r.failed == earlier.failed + (if Differs(source, objects, history) then ["knowledge-history"] else []) &&
            r.objectsCopied == earlier.objectsCopied + (if history in source && history !in objects then 1 else 0)
  {
    var objects := if dryRun then target.objects else RealTarget(documents, source, target).objects;
    if HISTORY in source && HISTORY in objects && Sha256(objects[HISTORY]) == Sha256(source[HISTORY]) {
      assert Sha256(objects[HISTORY]).data == objects[HISTORY];
    }
  }

  // ----- every copy is counted -----

  lemma CopyGrows(objects: Objects, source: Objects, key: ObjectKey)
    ensures |Copied(objects, source, key, false)| == |objects| + Count(objects, source, key)
  {
    if !Present(objects, source, key) {
      assert objects[key := source[key]].Keys == objects.Keys + {key};
      assert |objects[key := source[key]].Keys| == |objects.Keys| + 1;
      assert |objects.Keys| == |objects| && |objects[key := source[key]].Keys| == |objects[key := source[key]]|;
    }
  }

  lemma DocumentGrows(d: Document, source: Objects, t: Target)
    ensures var after, outcome := AfterDocument(d, source, t), OutcomeOf(d, source, t);
            if outcome.Migrated? then |after.objects| == |t.objects| + outcome.copied
            else if outcome.Skipped? then |after.objects| == |t.objects|
            else |after.objects| >= |t.objects|
  {
    var o1 := Copied(t.objects, source, OriginalKey(d), false);
    var o2 := Copied(o1, source, TextKey(d), false);
    CopyGrows(t.objects, source, OriginalKey(d));
    CopyGrows(o1, source, TextKey(d));
    CopyGrows(o2, source, ChunksKey(d));
  }

  /** The target grows by at least the objects reported as copied, and by exactly those if no document failed. */
  lemma {:induction false} CopiesAreCounted(documents: seq<Document>, source: Objects, target: Target)
    ensures var r, t := RealReport(documents, source, target), RealTarget(documents, source, target);
            |t.objects| >= |target.objects| + r.objectsCopied &&
            (r.failed == [] ==> |t.objects| == |target.objects| + r.objectsCopied)
  {
    if documents != [] {
      var before, d := documents[..|documents| - 1], documents[|documents| - 1];
      CopiesAreCounted(before, source, target);
      DocumentGrows(d, source, RealTarget(before, source, target));
    }
  }
}
