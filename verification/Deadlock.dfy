/** Nested runs under derived keys: waiting is acyclic, and running out of workers is the only deadlock. */
module Deadlock {
  import opened Basics
  import opened Jobs
  import opened Kernel
  import opened Invariants
  import opened Actions
  import opened Safety
  import opened Completion
  import opened Waits
  import Retention

  const CHILD_PREFIX := "child:"

  function ChildKey(parent: RunId): LockKey {
    CHILD_PREFIX + parent
  }

  predicate IsChildKey(k: LockKey) {
    CHILD_PREFIX <= k
  }

  lemma ChildKeyInjective(p: RunId, q: RunId)
    requires ChildKey(p) == ChildKey(q)
    ensures p == q
  {
    assert p == ChildKey(p)[|CHILD_PREFIX|..] && q == ChildKey(q)[|CHILD_PREFIX|..];
  }

  /** A child sits one level below a known parent under the derived key; a root avoids derived keys. */
  predicate Lineage(jobs: map<RunId, Job>, inv: Invocation) {
    match inv.parent
    case None => inv.depth == 0 && !IsChildKey(inv.lockKey)
    case Some(p) => p in jobs && inv.depth == jobs[p].inv.depth + 1 && inv.lockKey == ChildKey(p)
  }

  ghost predicate Lineages(jobs: map<RunId, Job>) {
    forall id :: id in jobs ==> Lineage(jobs, jobs[id].inv)
  }

  /** Submissions whose nested ones leave lock_key unset. */
  predicate Disciplined(s: State, a: Action) {
    a.Submit? ==> Lineage(s.store.jobs, a.inv)
  }

  ghost predicate DisciplinedRun(s: State, acts: seq<Action>)
    requires Legal(s, acts)
    decreases |acts|
  {
    acts == [] || (Disciplined(s, acts[0]) && DisciplinedRun(Next(s, acts[0]), acts[1..]))
  }

  ghost predicate DisciplinedReach(limits: Retention.Limits, n: nat, acts: seq<Action>, s: State) {
    ReachableBy(limits, n, acts, s) && DisciplinedRun(Init(limits, n), acts)
  }

  /** Only a submission creates a run, the one it names. */
  lemma NextDomain(s: State, a: Action)
    requires Inv(s) && Enabled(s, a)
    ensures forall id :: id in Next(s, a).store.jobs && id !in s.store.jobs ==>
              a.Submit? && id == a.inv.runId && Next(s, a).store.jobs[id].inv == a.inv
  {
    hide Inv;
  }

  /** A handler awaits what it awaited before, unless it has just started to await something more. */
  lemma AwaitedBefore(s: State, a: Action, w: Worker, c: RunId)
    requires Enabled(s, a) && IsExecuting(Next(s, a).workers, w) && c in Next(s, a).workers[w].awaiting
    ensures IsExecuting(s.workers, w) && Next(s, a).workers[w].item == s.workers[w].item
    ensures c in s.workers[w].awaiting || a == Await(w, c)
  {
  }

  lemma NextKeepsLineages(s: State, a: Action)
    requires Inv(s) && Enabled(s, a) && Disciplined(s, a) && Lineages(s.store.jobs)
    ensures Lineages(Next(s, a).store.jobs)
  {
    hide Inv, Next, Enabled;
    var t := Next(s, a);
    NextEvolves(s, a);
    NextDomain(s, a);
    forall id | id in t.store.jobs ensures Lineage(t.store.jobs, t.store.jobs[id].inv) {
      if id in s.store.jobs { assert Lineage(s.store.jobs, s.store.jobs[id].inv); }
    }
  }

  lemma AwaitedIsKnown(s: State, w: Worker, c: RunId)
    requires Inv(s) && IsExecuting(s.workers, w) && c in s.workers[w].awaiting
    ensures c in s.store.jobs
  {
    hide StoreOk, ItemsKnown, PlacesRight, StatusesFit, LogRight, LocksMatch, Fifo;
  }

  lemma AwaitNamesKnown(s: State, w: Worker, c: RunId)
    requires Enabled(s, Await(w, c))
    ensures c in s.store.jobs
  {
  }

  lemma {:induction false} ExecKeepsLineages(s: State, acts: seq<Action>)
    requires Inv(s) && Lineages(s.store.jobs) && Legal(s, acts) && DisciplinedRun(s, acts)
    ensures Lineages(Exec(s, acts).store.jobs)
    decreases |acts|
  {
    hide Inv, Lineages, Next, Disciplined, Enabled;
    if acts != [] {
      NextKeepsLineages(s, acts[0]);
      NextKeepsInv(s, acts[0]);
      ExecKeepsLineages(Next(s, acts[0]), acts[1..]);
    }
  }

  lemma InitLineages(limits: Retention.Limits, n: nat)
    ensures Lineages(Init(limits, n).store.jobs)
  {
  }

  lemma DisciplinedFacts(limits: Retention.Limits, n: nat, acts: seq<Action>, s: State)
    requires DisciplinedReach(limits, n, acts, s)
    ensures Inv(s) && Lineages(s.store.jobs) && |s.workers| == n && Reachable(s)
  {
    hide Inv, Lineages;
    InitInv(limits, n);
    InitLineages(limits, n);
    ExecKeepsInv(Init(limits, n), acts);
    ExecKeepsLineages(Init(limits, n), acts);
    WorkerCountFixed(Init(limits, n), acts);
  }

  // ---------------------------------------------------------------- awaiting one's own children

  /** If a handler starts to await something, it is the result of a child of its own run. */
  predicate AwaitsOwn(s: State, a: Action) {
    a.Await? && IsExecuting(s.workers, a.w) && a.child in s.store.jobs ==>
      s.store.jobs[a.child].inv.parent == Some(s.workers[a.w].item.runId)
  }

  ghost predicate AwaitsOwnRun(s: State, acts: seq<Action>)
    requires Legal(s, acts)
    decreases |acts|
  {
    acts == [] || (AwaitsOwn(s, acts[0]) && AwaitsOwnRun(Next(s, acts[0]), acts[1..]))
  }

  lemma NextKeepsAwaits(s: State, a: Action)
    requires Inv(s) && Enabled(s, a) && AwaitsOwn(s, a) && AwaitsOwnChildren(s.store.jobs, s.workers)
    ensures AwaitsOwnChildren(Next(s, a).store.jobs, Next(s, a).workers)
  {
    hide Inv, Next, Enabled;
    var t := Next(s, a);
    NextEvolves(s, a);
    forall w: Worker, c | IsExecuting(t.workers, w) && c in t.workers[w].awaiting && c in t.store.jobs
      ensures t.store.jobs[c].inv.parent == Some(t.workers[w].item.runId)
    {
      AwaitedBefore(s, a, w, c);
      if c in s.workers[w].awaiting { AwaitedIsKnown(s, w, c); } else { AwaitNamesKnown(s, w, c); }
    }
  }

  /** So handlers that await nothing but their own children from the start only ever await those. */
  lemma {:induction false} ExecKeepsAwaits(s: State, acts: seq<Action>)
    requires Inv(s) && AwaitsOwnChildren(s.store.jobs, s.workers) && Legal(s, acts) && AwaitsOwnRun(s, acts)
    ensures AwaitsOwnChildren(Exec(s, acts).store.jobs, Exec(s, acts).workers)
    decreases |acts|
  {
    hide Inv, AwaitsOwnChildren, Next, AwaitsOwn, Enabled;
    if acts != [] {
      NextKeepsAwaits(s, acts[0]);
      NextKeepsInv(s, acts[0]);
      ExecKeepsAwaits(Next(s, acts[0]), acts[1..]);
    }
  }

  ghost predicate Orderly(s: State) {
    Lineages(s.store.jobs) && AwaitsOwnChildren(s.store.jobs, s.workers)
  }

  // ---------------------------------------------------------------- derived keys rise with depth

  lemma SameKeySameDepth(jobs: map<RunId, Job>, a: Invocation, b: Invocation)
    requires Lineage(jobs, a) && Lineage(jobs, b) && a.lockKey == b.lockKey
    ensures a.depth == b.depth
  {
    if a.parent.Some? && b.parent.Some? {
      ChildKeyInjective(a.parent.value, b.parent.value);
    }
  }

  ghost predicate Shallower(jobs: map<RunId, Job>, low: LockKey, high: LockKey) {
    exists a, b :: a in jobs && b in jobs && jobs[a].inv.lockKey == low && jobs[b].inv.lockKey == high
                   && jobs[a].inv.depth < jobs[b].inv.depth
  }

  /** Keys ordered by the depth of the runs that carry them. */
  ghost function ByDepth(jobs: map<RunId, Job>): KeyOrder {
    (low, high) => Shallower(jobs, low, high)
  }

  lemma OneDepthPerKey(jobs: map<RunId, Job>, a: RunId, b: RunId)
    requires Lineages(jobs) && a in jobs && b in jobs && jobs[a].inv.lockKey == jobs[b].inv.lockKey
    ensures jobs[a].inv.depth == jobs[b].inv.depth
  {
    assert Lineage(jobs, jobs[a].inv) && Lineage(jobs, jobs[b].inv);
    SameKeySameDepth(jobs, jobs[a].inv, jobs[b].inv);
  }

  lemma ShallowerIsStrict(jobs: map<RunId, Job>, x: LockKey, y: LockKey, z: LockKey)
    requires Lineages(jobs)
    ensures !Shallower(jobs, x, x)
    ensures Shallower(jobs, x, y) && Shallower(jobs, y, z) ==> Shallower(jobs, x, z)
  {
    hide Lineages;
    if Shallower(jobs, x, x) {
      var a, b :| a in jobs && b in jobs && jobs[a].inv.lockKey == x && jobs[b].inv.lockKey == x
                  && jobs[a].inv.depth < jobs[b].inv.depth;
      OneDepthPerKey(jobs, a, b);
    }
    if Shallower(jobs, x, y) && Shallower(jobs, y, z) {
      var a, b :| a in jobs && b in jobs && jobs[a].inv.lockKey == x && jobs[b].inv.lockKey == y
                  && jobs[a].inv.depth < jobs[b].inv.depth;
      var c, d :| c in jobs && d in jobs && jobs[c].inv.lockKey == y && jobs[d].inv.lockKey == z
                  && jobs[c].inv.depth < jobs[d].inv.depth;
      OneDepthPerKey(jobs, b, c);
    }
  }

  lemma ByDepthIsStrict(jobs: map<RunId, Job>)
    requires Lineages(jobs)
    ensures Strict(ByDepth(jobs))
  {
    hide Lineages, Shallower;
    var less := ByDepth(jobs);
    forall k: LockKey ensures !less(k, k) { ShallowerIsStrict(jobs, k, k, k); }
    forall x: LockKey, y: LockKey, z: LockKey | less(x, y) && less(y, z) ensures less(x, z) {
      ShallowerIsStrict(jobs, x, y, z);
    }
  }

  /** A run's nearest non-empty key under the discipline: its own, since derived keys are never empty. */
  lemma DerivedTopKey(jobs: map<RunId, Job>, id: RunId)
    requires Lineages(jobs) && id in jobs && Rooted(jobs)
    ensures TopKey(jobs, id) == jobs[id].inv.lockKey
  {
    assert Lineage(jobs, jobs[id].inv);
  }

  lemma LineagesAreRooted(jobs: map<RunId, Job>)
    requires Lineages(jobs)
    ensures Rooted(jobs)
  {
    forall id | id in jobs && jobs[id].inv.parent.Some?
      ensures jobs[id].inv.parent.value in jobs
      ensures jobs[id].inv.depth == jobs[jobs[id].inv.parent.value].inv.depth + 1
    {
      assert Lineage(jobs, jobs[id].inv);
    }
  }

  lemma OrderlyIsOrdered(s: State)
    requires Orderly(s)
    ensures Ordered(ByDepth(s.store.jobs), s)
  {
    var jobs := s.store.jobs;
    ByDepthIsStrict(jobs);
    LineagesAreRooted(jobs);
    forall id | id in jobs ensures RisesAt(ByDepth(jobs), jobs, jobs[id].inv) {
      assert Lineage(jobs, jobs[id].inv);
      if jobs[id].inv.parent.Some? {
        DerivedTopKey(jobs, jobs[id].inv.parent.value);
        assert jobs[id].inv.parent.value in jobs;
        assert Shallower(jobs, jobs[jobs[id].inv.parent.value].inv.lockKey, jobs[id].inv.lockKey);
      }
    }
  }

  // ---------------------------------------------------------------- main results

  /** No chain of waiting runs ever closes. */
  lemma WaitingIsAcyclic(limits: Retention.Limits, n: nat, acts: seq<Action>, s: State, path: seq<RunId>)
    requires DisciplinedReach(limits, n, acts, s) && AwaitsOwnChildren(s.store.jobs, s.workers)
    requires |path| >= 2 && Chain(s, path)
    ensures path[0] != path[|path| - 1]
  {
    hide Inv, Chain, WaitsFor, Lineages, AwaitsOwnChildren, Ordered, Reachable;
    DisciplinedFacts(limits, n, acts, s);
    OrderlyIsOrdered(s);
    RisingKeysWaitAcyclically(ByDepth(s.store.jobs), s, path);
  }

  /**
   * If no worker can step although a run is unfinished, every worker is occupied, and some handler awaits a child
   * that is still in the queue: running out of workers is the only deadlock.
   */
  lemma OnlyExhaustionDeadlocks(limits: Retention.Limits, n: nat, acts: seq<Action>, s: State, id: RunId)
    returns (w: Worker, c: RunId)
    requires n >= 1 && DisciplinedReach(limits, n, acts, s) && WorkersStuck(s)
    requires AwaitsOwnChildren(s.store.jobs, s.workers)
    requires id in s.store.jobs && s.store.jobs[id].status.Active()
    ensures forall v: Worker :: v < n ==> Busy(s.workers, v)
    ensures |s.workers| == n && s.queue != [] && InFlight(s) > n
    ensures ResultWait(s, w, c) && c in s.places && s.places[c] == Queued
  {
    hide Inv, Lineages, AwaitsOwnChildren, Ordered, WorkersStuck, ResultWait, Reachable, InFlight;
    DisciplinedFacts(limits, n, acts, s);
    OrderlyIsOrdered(s);
    SomeoneIsBusy(s, id);
    w, c := StuckAwaitsQueuedChild(ByDepth(s.store.jobs), s);
    QueuedIsInQueue(s, c);
    StuckWithQueueIsFull(s);
  }

  lemma SomeoneIsBusy(s: State, id: RunId)
    requires Inv(s) && WorkersStuck(s) && |s.workers| >= 1
    requires id in s.store.jobs && s.store.jobs[id].status.Active()
    ensures exists v: Worker :: Busy(s.workers, v)
  {
    hide StoreOk, ItemsKnown, AwaitsKnown, LogRight, LocksMatch, Fifo;
    assert StatusFits(s, id);
    if s.places[id] == Queued {
      assert InQueue(s.queue, id);
      assert !Enabled(s, Dequeue(0));
      assert Busy(s.workers, 0);
    } else {
      assert Busy(s.workers, s.places[id].w);
    }
  }

  /** A state with at most as many items in flight as workers is left by some worker until everything is done. */
  lemma NeverStuckWithRoom(limits: Retention.Limits, n: nat, acts: seq<Action>, s: State)
    requires n >= 1 && DisciplinedReach(limits, n, acts, s) && InFlight(s) <= n
    requires AwaitsOwnChildren(s.store.jobs, s.workers)
    ensures WorkersStuck(s) ==> AllDone(s)
  {
    hide Inv, Lineages, AwaitsOwnChildren, Ordered, WorkersStuck, AllDone, Reachable, InFlight;
    DisciplinedFacts(limits, n, acts, s);
    OrderlyIsOrdered(s);
    if WorkersStuck(s) {
      StuckWithRoomIsDone(ByDepth(s.store.jobs), s);
    }
  }

  ghost predicate NoSubmissions(acts: seq<Action>) {
    forall i :: 0 <= i < |acts| ==> !acts[i].Submit?
  }

  lemma {:induction false} InFlightFallsOver(s: State, acts: seq<Action>)
    requires Legal(s, acts) && NoSubmissions(acts)
    ensures InFlight(Exec(s, acts)) <= InFlight(s)
    decreases |acts|
  {
    hide InFlight, Next, Enabled;
    if acts != [] {
      InFlightFalls(s, acts[0]);
      InFlightFallsOver(Next(s, acts[0]), acts[1..]);
    }
  }

  lemma {:induction false} UndisciplinedNothing(s: State, acts: seq<Action>)
    requires Legal(s, acts) && NoSubmissions(acts)
    ensures DisciplinedRun(s, acts)
    decreases |acts|
  {
    hide Next, Enabled;
    if acts != [] { UndisciplinedNothing(Next(s, acts[0]), acts[1..]); }
  }

  /**
   * Completion with nesting: once no more items are in flight than there are workers and nothing more is submitted,
   * whatever else happens (handlers awaiting further children, cancels, pops, cleanups), a state no worker can leave
   * has everything done.
   */
  lemma NestedRunsComplete(limits: Retention.Limits, n: nat, acts: seq<Action>, s: State, rest: seq<Action>)
    requires n >= 1 && DisciplinedReach(limits, n, acts, s) && InFlight(s) <= n
    requires AwaitsOwnChildren(s.store.jobs, s.workers)
    requires Legal(s, rest) && AwaitsOwnRun(s, rest) && NoSubmissions(rest) && WorkersStuck(Exec(s, rest))
    ensures AllDone(Exec(s, rest))
  {
    hide Inv, Lineages, AwaitsOwnChildren, Ordered, WorkersStuck, AllDone, Reachable, InFlight;
    DisciplinedFacts(limits, n, acts, s);
    InFlightFallsOver(s, rest);
    ExecKeepsInv(s, rest);
    UndisciplinedNothing(s, rest);
    ExecKeepsLineages(s, rest);
    ExecKeepsAwaits(s, rest);
    WorkerCountFixed(s, rest);
    OrderlyIsOrdered(Exec(s, rest));
    StuckWithRoomIsDone(ByDepth(Exec(s, rest).store.jobs), Exec(s, rest));
  }

  /** From such a state the workers alone, resuming handlers among them, always get everything done. */
  lemma {:induction false} NestedRunsCanComplete(s: State) returns (acts: seq<Action>)
    requires Inv(s) && Orderly(s) && |s.workers| >= 1 && InFlight(s) <= |s.workers|
    ensures Legal(s, acts) && |acts| <= Work(s) && AllDone(Exec(s, acts))
    ensures forall i :: 0 <= i < |acts| ==> WorkerAction(acts[i])
    decreases Work(s)
  {
    hide Inv, Lineages, AwaitsOwnChildren, Ordered, AllDone, Work, Enabled, Next, Legal, Exec, InFlight;
    if WorkersStuck(s) {
      OrderlyIsOrdered(s);
      StuckWithRoomIsDone(ByDepth(s.store.jobs), s);
      NoActions(s);
      return [];
    }
    var a :| WorkerAction(a) && Enabled(s, a);
    ActionWork(s, a);
    InFlightFalls(s, a);
    NextKeepsInv(s, a);
    NextKeepsLineages(s, a);
    NextKeepsAwaits(s, a);
    NextKeepsWorkers(s, a);
    var rest := NestedRunsCanComplete(Next(s, a));
    acts := [a] + rest;
    ExecStep(s, a, rest);
  }
}
