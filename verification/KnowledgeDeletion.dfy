/**
 * What is left in the index after an article is deleted.  The delete event removes both rows, but a
 * worker that read the article before may still write one: this file says exactly when.
 */
module KnowledgeDeletion {
  import opened Wrappers
  import opened KnowledgeRows
  import opened KnowledgeIndex

  /** The run read an article that existed, and has a row still to write. */
  predicate HoldsDocument(c: Cell, run: nat) {
    run in c.runs && c.runs[run].live &&
    (c.runs[run].plan.Embedding? || c.runs[run].plan.WritingSearch? || c.runs[run].plan.WritingVector?)
  }

  /** The article is gone, its rows too, and nobody can write one again. */
  ghost predicate Gone(c: Cell) {
    c.article.None? && c.used && c.search.None? && c.vector.None? && forall run :: !HoldsDocument(c, run)
  }

  lemma GoneStays(id: string, c: Cell, step: Step)
    requires Gone(c)
    ensures Gone(Next(id, c, step))
  {
    var d := Next(id, c, step);
    forall run
      ensures !HoldsDocument(d, run)
    {
      assert !HoldsDocument(c, run);
    }
    if step.WriteSearch? || step.WriteVector? {
      assert !HoldsDocument(c, step.run);
    }
  }

  lemma {:induction false} GoneForGood(id: string, c: Cell, steps: seq<Step>)
    requires Gone(c)
    ensures Gone(Execute(id, c, steps))
    decreases |steps|
  {
    if steps != [] {
      GoneStays(id, c, steps[0]);
      GoneForGood(id, Next(id, c, steps[0]), steps[1..]);
    }
  }

  predicate HasRow(c: Cell) {
    c.search.Some? || c.vector.Some?
  }

  lemma {:induction false} ExecuteAppend(id: string, c: Cell, steps: seq<Step>, step: Step)
    ensures Execute(id, c, steps + [step]) == Next(id, Execute(id, c, steps), step)
    decreases |steps|
  {
    if steps == [] {
      assert [step][1..] == [];
      assert Execute(id, Next(id, c, step), []) == Next(id, c, step);
    } else {
      assert (steps + [step])[1..] == steps[1..] + [step];
      ExecuteAppend(id, Next(id, c, steps[0]), steps[1..], step);
    }
  }

  lemma LateWrite(id: string, c: Cell, run: nat) returns (steps: seq<Step>)
    requires c.search.None? && c.vector.None? && HoldsDocument(c, run)
    ensures HasRow(Execute(id, c, steps))
  {
    steps := [];
    assert Execute(id, c, []) == c;
    if c.runs[run].plan.Embedding? {
      ExecuteAppend(id, c, steps, Embed(run, "m", "1"));
      steps := steps + [Embed(run, "m", "1")];
    }
    if c.runs[run].plan.WritingVector? {
      ExecuteAppend(id, c, steps, WriteVector(run));
      steps := steps + [WriteVector(run)];
    } else {
      ExecuteAppend(id, c, steps, WriteSearch(run));
      steps := steps + [WriteSearch(run)];
    }
  }

  ghost predicate RowCanComeBack(id: string, c: Cell) {
    exists steps :: HasRow(Execute(id, c, steps))
  }

  /** Cleaned-up rows of a deleted article come back if and only if a worker still holds its document. */
  lemma RowsComeBackIffHeld(id: string, c: Cell)
    requires c.article.None? && c.used && c.search.None? && c.vector.None?
    ensures RowCanComeBack(id, c) <==> (exists run :: HoldsDocument(c, run))
  {
    if exists run :: HoldsDocument(c, run) {
      var run :| HoldsDocument(c, run);
      var steps := LateWrite(id, c, run);
      assert HasRow(Execute(id, c, steps));
    } else {
      forall steps
        ensures !HasRow(Execute(id, c, steps))
      {
        GoneForGood(id, c, steps);
      }
    }
  }

  // ----- such a worker exists in a reachable state whose delete event is COMPLETED -----

  const Open: Content := Content(Access(PlatformOwned, None, Public, Published), "s", "t", "", [], "")
  const First: EventKey := EventKey(1, false)
  const Gone1: EventKey := EventKey(1, true)

  lemma Extend(steps: seq<Step>, c: Cell, step: Step) returns (more: seq<Step>)
    requires Execute("a", EmptyCell, steps) == c
    ensures Execute("a", EmptyCell, more) == Next("a", c, step)
  {
    ExecuteAppend("a", EmptyCell, steps, step);
    more := steps + [step];
  }

  const Published1: Article := Article("a", 1, Open, false)
  const Event1: Event := Event(Processing, 1, 5, 0, Some(Lease(0, 1000)))
  const Stale: Run := Run(First, 1, 5, Embedding(DocumentOf(Published1)), true)
  const Stalled: Cell := Cell(Some(Published1), true, None, None, map[First := Event1], map[0 := Stale], 1)

  lemma ReachStalled() returns (steps: seq<Step>)
    ensures Execute("a", EmptyCell, steps) == Stalled
  {
    steps := [];
    steps := Extend(steps, EmptyCell, Create(Open, 5));
    var c := Next("a", EmptyCell, Create(Open, 5));
    steps := Extend(steps, c, Claim(First, 0, 1000));
    var d := Next("a", c, Claim(First, 0, 1000));
    steps := Extend(steps, d, Read(0));
    assert Next("a", d, Read(0)).runs == map[0 := Stale];
  }

  const Removal: Run := Run(Gone1, 1, 5, Removing(1, true, true), true)
  const Event2: Event := Event(Processing, 1, 5, 0, Some(Lease(1, 1000)))
  const Cleaning: Cell := Cell(None, true, None, None, map[First := Event1, Gone1 := Event2], map[0 := Stale, 1 := Removal], 2)

  lemma ReachCleaning() returns (steps: seq<Step>)
    ensures Execute("a", EmptyCell, steps) == Cleaning
  {
    steps := ReachStalled();
    steps := Extend(steps, Stalled, Delete(5));
    var c := Next("a", Stalled, Delete(5));
    steps := Extend(steps, c, Claim(Gone1, 0, 1000));
    var d := Next("a", c, Claim(Gone1, 0, 1000));
    assert d.runs == map[0 := Stale, 1 := Removal.(plan := Reading)];
    steps := Extend(steps, d, Read(1));
    assert Next("a", d, Read(1)) == Cleaning;
  }

  const Done2: Event := Event2.(status := Completed, lease := None)
  const Cleaned: Cell :=
    Cell(None, true, None, None, map[First := Event1, Gone1 := Done2], map[0 := Stale, 1 := Run(Gone1, 1, 5, Removing(1, false, false), false)], 2)

  lemma CompleteCleaned()
    ensures var c := Next("a", Cleaning, RemoveSearchRow(1));
            Next("a", Next("a", c, RemoveVectorRow(1)), Complete(1)) == Cleaned
  {
    var d := Next("a", Next("a", Cleaning, RemoveSearchRow(1)), RemoveVectorRow(1));
    assert d.runs == map[0 := Stale, 1 := Removal.(plan := Removing(1, false, false))];
    assert d.events == Cleaning.events && Holds(d, 1);
  }

  lemma ReachCleaned() returns (steps: seq<Step>)
    ensures Execute("a", EmptyCell, steps) == Cleaned
  {
    steps := ReachCleaning();
    steps := Extend(steps, Cleaning, RemoveSearchRow(1));
    var c := Next("a", Cleaning, RemoveSearchRow(1));
    steps := Extend(steps, c, RemoveVectorRow(1));
    var d := Next("a", c, RemoveVectorRow(1));
    steps := Extend(steps, d, Complete(1));
    CompleteCleaned();
  }

  /** The delete event is COMPLETED, yet a row of the deleted article is stored. */
  lemma OrphanAfterCompletedDeletion()
    ensures exists steps :: var c := Execute("a", EmptyCell, steps);
              c.article.None? && Gone1 in c.events && c.events[Gone1].status == Completed && HasRow(c)
  {
    var steps := ReachCleaned();
    steps := Extend(steps, Cleaned, Embed(0, "m", "1"));
    steps := Extend(steps, Next("a", Cleaned, Embed(0, "m", "1")), WriteSearch(0));
  }
}
