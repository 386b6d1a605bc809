/** The promise-chain lock `withFileLock`, which both file-backed queues wrap around every read-modify-write. */
module FileLock {
  import opened Wrappers

  // A call is identified by its arrival number; the parts between two awaits are atomic, so a call is the
  // steps Arrive, Enter, Load, Save, Finish.  A call whose action throws or decides not to write goes to
  // Finish without Save.  A step that is not enabled leaves the state as it is.

  datatype Phase<C> =
    | Waiting
    | Entered
    | Loaded(seen: C)
    | Saved
    | Finished(saved: bool)

  /** `previous` is the call whose chained promise this call awaits; None is `Promise.resolve()`. */
  datatype Call<!C> = Call(previous: Option<nat>, action: C -> C, phase: Phase<C>)

  /** `entry` is the `fileLocks` entry of the file: the call whose chained promise it holds. */
  datatype State<!C> = State(calls: seq<Call<C>>, entry: Option<nat>, file: C)

  datatype Step<!C> =
    | Arrive(action: C -> C)
    | Enter(call: nat)
    | Load(call: nat)
    | Save(call: nat)
    | Finish(call: nat)

  function Initial<C>(file: C): State<C> {
    State([], None, file)
  }

  /** The chained promise of call i resolves once its own lock and every lock before it are released. */
  predicate Resolved<C>(calls: seq<Call<C>>, i: nat) {
    i < |calls| && calls[i].phase.Finished? &&
    match calls[i].previous
    case None => true
    case Some(p) => p < i && Resolved(calls, p)
  }

  function SetPhase<C>(s: State<C>, i: nat, phase: Phase<C>): State<C>
    requires i < |s.calls|
  {
    s.(calls := s.calls[i := s.calls[i].(phase := phase)])
  }

  function Next<C>(s: State<C>, step: Step<C>): State<C> {
    match step
    case Arrive(action) =>
      s.(calls := s.calls + [Call(s.entry, action, Waiting)], entry := Some(|s.calls|))
    case Enter(i) =>
      if i < |s.calls| && s.calls[i].phase.Waiting? &&
         (s.calls[i].previous.None? || Resolved(s.calls, s.calls[i].previous.value))
      then SetPhase(s, i, Entered)
      else s
    case Load(i) =>
      if i < |s.calls| && s.calls[i].phase.Entered? then SetPhase(s, i, Loaded(s.file)) else s
    case Save(i) =>
      if i < |s.calls| && s.calls[i].phase.Loaded?
      then SetPhase(s, i, Saved).(file := s.calls[i].action(s.calls[i].phase.seen))
      else s
    case Finish(i) =>
      if i < |s.calls| && (s.calls[i].phase.Entered? || s.calls[i].phase.Loaded? || s.calls[i].phase.Saved?)
      then SetPhase(s, i, Finished(s.calls[i].phase.Saved?)).(entry := if s.entry == Some(i) then None else s.entry)
      else s
  }

  function Run<C>(s: State<C>, steps: seq<Step<C>>): State<C>
    decreases |steps|
  {
    if steps == [] then s else Run(Next(s, steps[0]), steps[1..])
  }

  predicate Inside<C>(call: Call<C>) {
    call.phase.Entered? || call.phase.Loaded? || call.phase.Saved?
  }

  predicate Wrote<C>(call: Call<C>) {
    call.phase.Saved? || (call.phase.Finished? && call.phase.saved)
  }

  /** The sequential run: the calls that wrote, applied one after the other in arrival order. */
  function Replay<C>(file: C, calls: seq<Call<C>>): C {
    if calls == [] then file
    else
      var before := Replay(file, calls[..|calls| - 1]);
      if Wrote(calls[|calls| - 1]) then calls[|calls| - 1].action(before) else before
  }

  ghost predicate AllFinished<C>(calls: seq<Call<C>>, n: nat)
    requires n <= |calls|
  {
    forall j :: 0 <= j < n ==> calls[j].phase.Finished?
  }

  ghost predicate Chained<C>(s: State<C>) {
    && (forall i :: 0 <= i < |s.calls| ==>
          && (s.calls[i].previous.None? ==> AllFinished(s.calls, i))
          && (s.calls[i].previous.Some? ==> s.calls[i].previous.value == i - 1)
          && (!s.calls[i].phase.Waiting? ==> AllFinished(s.calls, i)))
    && (s.entry.None? ==> AllFinished(s.calls, |s.calls|))
    && (s.entry.Some? ==> s.entry.value == |s.calls| - 1 && !s.calls[s.entry.value].phase.Finished?)
  }

  ghost predicate Sequential<C(!new)>(file: C, s: State<C>) {
    && s.file == Replay(file, s.calls)
    && (forall i :: 0 <= i < |s.calls| && s.calls[i].phase.Loaded? ==> s.calls[i].phase.seen == s.file)
  }

  lemma {:induction false} ResolvedMeansAllFinished<C>(s: State<C>, i: nat)
    requires Chained(s) && Resolved(s.calls, i)
    ensures AllFinished(s.calls, i + 1)
  {
    if s.calls[i].previous.Some? {
      ResolvedMeansAllFinished(s, s.calls[i].previous.value);
    }
  }

  lemma ChainedPreserved<C>(s: State<C>, step: Step<C>)
    requires Chained(s)
    ensures Chained(Next(s, step))
  {
    if step.Enter? && Next(s, step) != s && s.calls[step.call].previous.Some? {
      ResolvedMeansAllFinished(s, s.calls[step.call].previous.value);
    }
  }

  /** Calls that have not written contribute nothing. */
  lemma {:induction false} ReplaySkips<C>(file: C, calls: seq<Call<C>>, n: nat)
    requires n <= |calls|
    requires forall j :: n <= j < |calls| ==> !Wrote(calls[j])
    ensures Replay(file, calls) == Replay(file, calls[..n])
    decreases |calls|
  {
    if n < |calls| {
      var most := calls[..|calls| - 1];
      assert most[..n] == calls[..n];
      ReplaySkips(file, most, n);
    } else {
      assert calls[..n] == calls;
    }
  }

  /** What wrote and what it does decide the replay. */
  lemma {:induction false} ReplayDepends<C>(file: C, a: seq<Call<C>>, b: seq<Call<C>>)
    requires |a| == |b|
    requires forall j :: 0 <= j < |a| ==> Wrote(a[j]) == Wrote(b[j]) && a[j].action == b[j].action
    ensures Replay(file, a) == Replay(file, b)
  {
    if a != [] {
      ReplayDepends(file, a[..|a| - 1], b[..|b| - 1]);
    }
  }

  lemma OneInside<C>(s: State<C>, i: nat, j: nat)
    requires Chained(s) && i < j < |s.calls|
    ensures s.calls[i].phase.Finished? || s.calls[j].phase.Waiting?
  {
    assert !s.calls[j].phase.Waiting? ==> AllFinished(s.calls, j);
  }

  /** The call inside the lock sees, and overwrites, the file the calls before it left. */
  lemma SaveExtendsReplay<C(!new)>(file: C, s: State<C>, i: nat)
    requires Chained(s) && Sequential(file, s)
    requires i < |s.calls| && s.calls[i].phase.Loaded?
    ensures Replay(file, Next(s, Save(i)).calls) == s.calls[i].action(s.calls[i].phase.seen)
  {
    var after := Next(s, Save(i)).calls;
    forall j | i < j < |s.calls| ensures s.calls[j].phase.Waiting? {
      OneInside(s, i, j);
    }
    ReplaySkips(file, s.calls, i);
    ReplaySkips(file, after, i + 1);
    assert after[..i + 1][..i] == s.calls[..i];
  }

  lemma SequentialPreserved<C(!new)>(file: C, s: State<C>, step: Step<C>)
    requires Chained(s) && Sequential(file, s)
    ensures Sequential(file, Next(s, step))
  {
    var t := Next(s, step);
    match step
    case Arrive(action) =>
      assert t.calls[..|t.calls| - 1] == s.calls;
    case Save(i) =>
      if t != s {
        SaveExtendsReplay(file, s, i);
        forall j | 0 <= j < |t.calls| ensures !t.calls[j].phase.Loaded? {
          if i < j { OneInside(s, i, j); }
          if j < i { OneInside(s, j, i); }
        }
      }
    case Enter(_) => ReplayDepends(file, s.calls, t.calls);
    case Load(_) => ReplayDepends(file, s.calls, t.calls);
    case Finish(_) => ReplayDepends(file, s.calls, t.calls);
  }

  lemma {:induction false} RunKeeps<C(!new)>(file: C, s: State<C>, steps: seq<Step<C>>)
    requires Chained(s) && Sequential(file, s)
    ensures Chained(Run(s, steps)) && Sequential(file, Run(s, steps))
    decreases |steps|
  {
    if steps != [] {
      ChainedPreserved(s, steps[0]);
      SequentialPreserved(file, s, steps[0]);
      RunKeeps(file, Next(s, steps[0]), steps[1..]);
    }
  }

  /** At most one call is inside, and calls get inside in the order in which they arrived. */
  lemma MutualExclusionInArrivalOrder<C(!new)>(file: C, steps: seq<Step<C>>, i: nat, j: nat)
    requires i < j < |Run(Initial(file), steps).calls|
    requires !Run(Initial(file), steps).calls[j].phase.Waiting?
    ensures Run(Initial(file), steps).calls[i].phase.Finished?
  {
    RunKeeps(file, Initial(file), steps);
  }

  /** The map entry is absent exactly when no call is inside or waiting. */
  lemma EntryDeletedOnlyWhenNobodyWaits<C(!new)>(file: C, steps: seq<Step<C>>)
    ensures var s := Run(Initial(file), steps);
            s.entry.None? <==> forall i :: 0 <= i < |s.calls| ==> s.calls[i].phase.Finished?
  {
    RunKeeps(file, Initial(file), steps);
  }

  /** Every interleaving leaves the file that the writing calls leave when run one after the other. */
  lemma InterleavingEqualsSequentialRun<C(!new)>(file: C, steps: seq<Step<C>>)
    ensures Run(Initial(file), steps).file == Replay(file, Run(Initial(file), steps).calls)
  {
    RunKeeps(file, Initial(file), steps);
  }

  /** The lock never deadlocks: while a call is unfinished, the earliest such call can take a step. */
  lemma EarliestCallCanStep<C(!new)>(file: C, steps: seq<Step<C>>, i: nat)
    requires i < |Run(Initial(file), steps).calls|
    requires AllFinished(Run(Initial(file), steps).calls, i)
    requires !Run(Initial(file), steps).calls[i].phase.Finished?
    ensures var s := Run(Initial(file), steps);
            Next(s, Enter(i)).calls[i].phase.Entered? || Next(s, Finish(i)).calls[i].phase.Finished?
  {
    RunKeeps(file, Initial(file), steps);
    var s := Run(Initial(file), steps);
    if i > 0 { EarlierLocksReleased(s, i - 1); }
  }

  lemma {:induction false} EarlierLocksReleased<C>(s: State<C>, i: nat)
    requires Chained(s) && i < |s.calls| && AllFinished(s.calls, i + 1)
    ensures Resolved(s.calls, i)
  {
    if s.calls[i].previous.Some? {
      EarlierLocksReleased(s, i - 1);
    }
  }

  lemma {:induction false} ReplayKeeps<C(!new)>(file: C, calls: seq<Call<C>>, p: C -> bool)
    requires p(file)
    requires forall i, c :: 0 <= i < |calls| && p(c) ==> p(calls[i].action(c))
    ensures p(Replay(file, calls))
  {
    if calls != [] {
      ReplayKeeps(file, calls[..|calls| - 1], p);
    }
  }
}
