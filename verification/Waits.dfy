/**
 * Who waits for whom, when waiting cannot be circular, and what a stuck executor then looks like: for any order of
 * the lock keys along which keys rise from parent to child.
 */
module Waits {
  import opened Basics
  import opened Jobs
  import opened Kernel
  import opened Invariants
  import opened Actions
  import opened Safety
  import opened Completion

  // ---------------------------------------------------------------- the wait-for relation

  /** The run at worker w waits for a lock that the run at worker v holds. */
  predicate LockWait(s: State, w: Worker, v: Worker) {
    IsWaiting(s.workers, w) && LockOf(s.locks, s.workers[w].item.lockKey).holder == Some(v)
  }

  /** The run at worker w awaits the unfinished run c. */
  predicate ResultWait(s: State, w: Worker, c: RunId) {
    && IsExecuting(s.workers, w) && c in s.workers[w].awaiting
    && c in s.store.jobs && s.store.jobs[c].status.Active()
  }

  ghost predicate WaitsFor(s: State, a: RunId, b: RunId) {
    || (exists w: Worker, v: Worker ::
          LockWait(s, w, v) && Busy(s.workers, v) && IdAt(s.workers, w) == a && IdAt(s.workers, v) == b)
    || (exists w: Worker :: ResultWait(s, w, b) && IdAt(s.workers, w) == a)
  }

  ghost predicate Chain(s: State, path: seq<RunId>) {
    forall i :: 0 <= i < |path| - 1 ==> WaitsFor(s, path[i], path[i + 1])
  }

  // ---------------------------------------------------------------- keys that rise along the family tree

  /** Every awaited run is a child of the run that awaits it. */
  ghost predicate AwaitsOwnChildren(jobs: map<RunId, Job>, ws: seq<Phase>) {
    forall w: Worker, c :: IsExecuting(ws, w) && c in ws[w].awaiting && c in jobs ==>
      jobs[c].inv.parent == Some(ws[w].item.runId)
  }

  /** A nested run is one level below a known parent. */
  ghost predicate Rooted(jobs: map<RunId, Job>) {
    forall id :: id in jobs && jobs[id].inv.parent.Some? ==>
      jobs[id].inv.parent.value in jobs && jobs[id].inv.depth == jobs[jobs[id].inv.parent.value].inv.depth + 1
  }

  /** The nearest non-empty lock key at or above a run; empty if there is none. */
  ghost function TopKey(jobs: map<RunId, Job>, id: RunId): LockKey
    requires Rooted(jobs) && id in jobs
    decreases jobs[id].inv.depth
  {
    if jobs[id].inv.lockKey != "" || jobs[id].inv.parent.None? then jobs[id].inv.lockKey
    else TopKey(jobs, jobs[id].inv.parent.value)
  }

  type KeyOrder = (LockKey, LockKey) -> bool

  ghost predicate Strict(less: KeyOrder) {
    && (forall k: LockKey :: !less(k, k))
    && (forall a: LockKey, b: LockKey, c: LockKey :: less(a, b) && less(b, c) ==> less(a, c))
  }

  /** The empty key is below all others. */
  predicate Over(less: KeyOrder, low: LockKey, high: LockKey) {
    high != "" && (low == "" || less(low, high))
  }

  /** A non-empty key stands above the keys of all ancestors, that is, above the nearest one. */
  ghost predicate RisesAt(less: KeyOrder, jobs: map<RunId, Job>, inv: Invocation)
    requires Rooted(jobs)
  {
    inv.parent.Some? && inv.parent.value in jobs && inv.lockKey != "" ==>
      Over(less, TopKey(jobs, inv.parent.value), inv.lockKey)
  }

  ghost predicate Rising(less: KeyOrder, jobs: map<RunId, Job>) {
    Rooted(jobs) && forall id :: id in jobs ==> RisesAt(less, jobs, jobs[id].inv)
  }

  /** What the results below ask of a state. */
  ghost predicate Ordered(less: KeyOrder, s: State) {
    Strict(less) && Rising(less, s.store.jobs) && AwaitsOwnChildren(s.store.jobs, s.workers)
  }

  /** A submission whose key is empty or above its parent's chain keeps keys rising. */
  lemma SubmissionKeepsRising(less: KeyOrder, jobs: map<RunId, Job>, inv: Invocation)
    requires Rising(less, jobs) && inv.runId !in jobs && RisesAt(less, jobs, inv)
    requires inv.parent.Some? ==> inv.parent.value in jobs && inv.depth == jobs[inv.parent.value].inv.depth + 1
    ensures Rising(less, jobs[inv.runId := NewJob(inv)])
  {
    var jobs' := jobs[inv.runId := NewJob(inv)];
    assert Rooted(jobs');
    forall id | id in jobs' ensures RisesAt(less, jobs', jobs'[id].inv) {
      var x := jobs'[id].inv;
      if id in jobs { assert RisesAt(less, jobs, x); }
      if x.parent.Some? { TopKeyStays(jobs, jobs', x.parent.value); }
    }
  }

  lemma {:induction false} TopKeyStays(jobs: map<RunId, Job>, jobs': map<RunId, Job>, id: RunId)
    requires Rooted(jobs) && Rooted(jobs') && id in jobs
    requires forall x :: x in jobs ==> x in jobs' && jobs'[x].inv == jobs[x].inv
    ensures TopKey(jobs', id) == TopKey(jobs, id)
    decreases jobs[id].inv.depth
  {
    if jobs[id].inv.lockKey == "" && jobs[id].inv.parent.Some? {
      TopKeyStays(jobs, jobs', jobs[id].inv.parent.value);
    }
  }

  // ---------------------------------------------------------------- waiting goes up

  /** Under one key the waiters come before the holder, and the holder before its keyless descendants. */
  ghost function Stage(s: State, id: RunId): nat
    requires id in s.store.jobs
  {
    if s.store.jobs[id].inv.lockKey == "" then 2 + s.store.jobs[id].inv.depth
    else if s.store.jobs[id].status == Running then 1 else 0
  }

  ghost predicate Below(less: KeyOrder, s: State, a: RunId, b: RunId) {
    && Rooted(s.store.jobs) && a in s.store.jobs && b in s.store.jobs
    && var x, y := TopKey(s.store.jobs, a), TopKey(s.store.jobs, b);
    Over(less, x, y) || (x == y && Stage(s, a) < Stage(s, b))
  }

  lemma BelowIsStrict(less: KeyOrder, s: State, a: RunId, b: RunId, c: RunId)
    requires Strict(less)
    ensures !Below(less, s, a, a)
    ensures Below(less, s, a, b) && Below(less, s, b, c) ==> Below(less, s, a, c)
  {
    hide TopKey, Stage;
  }

  lemma WaitingIsNotRunning(s: State, w: Worker)
    requires Inv(s) && IsWaiting(s.workers, w)
    ensures Known(s.store.jobs, s.workers[w].item)
    ensures s.store.jobs[s.workers[w].item.runId].status != Running
    ensures s.workers[w].item.lockKey != ""
  {
    hide Fifo, LogRight, StatusFits, JobOk;
    assert Busy(s.workers, w) && IdAt(s.workers, w) == s.workers[w].item.runId;
    assert Known(s.store.jobs, s.workers[w].item);
    GrantedIsUntouched(s, w);
  }

  /** The holder of a lock executes under that key. */
  lemma HolderExecutes(s: State, k: LockKey, v: Worker)
    requires Inv(s)
    ensures LockOf(s.locks, k).holder == Some(v)
            <==> k != "" && IsExecuting(s.workers, v) && s.workers[v].item.lockKey == k
  {
    hide StoreOk, ItemsKnown, AwaitsKnown, PlacesRight, StatusesFit, LogRight, Fifo;
    assert LockMatches(s.workers, LockOf(s.locks, k), k);
  }

  lemma LockWaitGoesUp(less: KeyOrder, s: State, w: Worker, v: Worker)
    requires Inv(s) && Rooted(s.store.jobs) && LockWait(s, w, v)
    ensures Busy(s.workers, v) && Below(less, s, IdAt(s.workers, w), IdAt(s.workers, v))
  {
    hide Inv, Rooted;
    WaitingIsNotRunning(s, w);
    HolderExecutes(s, s.workers[w].item.lockKey, v);
    ExecutingIsRunning(s, v);
  }

  lemma ResultWaitGoesUp(less: KeyOrder, s: State, w: Worker, c: RunId)
    requires Inv(s) && Rising(less, s.store.jobs) && AwaitsOwnChildren(s.store.jobs, s.workers)
    requires ResultWait(s, w, c)
    ensures IsExecuting(s.workers, w) && Below(less, s, IdAt(s.workers, w), c)
  {
    hide Inv;
    ExecutingIsRunning(s, w);
    assert s.store.jobs[c].inv.parent == Some(s.workers[w].item.runId);
    assert RisesAt(less, s.store.jobs, s.store.jobs[c].inv);
  }

  lemma WaitingGoesUp(less: KeyOrder, s: State, a: RunId, b: RunId)
    requires Inv(s) && Ordered(less, s) && WaitsFor(s, a, b)
    ensures Below(less, s, a, b)
  {
    hide Inv, Below, Strict, AwaitsOwnChildren;
    if w: Worker, v: Worker :|
        LockWait(s, w, v) && Busy(s.workers, v) && IdAt(s.workers, w) == a && IdAt(s.workers, v) == b {
      LockWaitGoesUp(less, s, w, v);
    } else {
      var w: Worker :| ResultWait(s, w, b) && IdAt(s.workers, w) == a;
      ResultWaitGoesUp(less, s, w, b);
    }
  }

  lemma {:induction false} ChainsClimb(less: KeyOrder, s: State, path: seq<RunId>)
    requires Inv(s) && Ordered(less, s) && |path| >= 2 && Chain(s, path)
    ensures Below(less, s, path[0], path[|path| - 1])
  {
    hide Inv, Below, WaitsFor, Rising, AwaitsOwnChildren, Strict;
    assert WaitsFor(s, path[0], path[1]);
    WaitingGoesUp(less, s, path[0], path[1]);
    if |path| > 2 {
      var rest := path[1..];
      forall i | 0 <= i < |rest| - 1 ensures WaitsFor(s, rest[i], rest[i + 1]) {
        assert WaitsFor(s, path[i + 1], path[i + 1 + 1]);
      }
      ChainsClimb(less, s, rest);
      BelowIsStrict(less, s, path[0], path[1], path[|path| - 1]);
    }
  }

  /**
   * Where handlers await children only and non-empty keys rise from parent to child in some strict order, no chain of
   * waiting runs closes.
   */
  lemma RisingKeysWaitAcyclically(less: KeyOrder, s: State, path: seq<RunId>)
    requires Reachable(s) && Ordered(less, s) && |path| >= 2 && Chain(s, path)
    ensures path[0] != path[|path| - 1]
  {
    hide Inv, Below, Chain, Rising, AwaitsOwnChildren, Strict;
    ReachableInv(s);
    ChainsClimb(less, s, path);
    BelowIsStrict(less, s, path[0], path[0], path[0]);
  }

  // ---------------------------------------------------------------- what being stuck means

  /** A busy worker whose run has none of the first m workers' runs above it. */
  lemma {:induction false} HighestBusy(less: KeyOrder, s: State, m: nat) returns (w: Worker)
    requires Strict(less) && m <= |s.workers| && exists v: Worker :: v < m && Busy(s.workers, v)
    ensures w < m && Busy(s.workers, w)
    ensures forall v: Worker :: v < m && Busy(s.workers, v) ==>
              !Below(less, s, IdAt(s.workers, w), IdAt(s.workers, v))
    decreases m
  {
    hide Below, Strict;
    var last := m - 1;
    if exists v: Worker :: v < last && Busy(s.workers, v) {
      w := HighestBusy(less, s, last);
      var before := w;
      if Busy(s.workers, last) && Below(less, s, IdAt(s.workers, w), IdAt(s.workers, last)) {
        w := last;
      }
      forall v: Worker | v < m && Busy(s.workers, v) ensures !Below(less, s, IdAt(s.workers, w), IdAt(s.workers, v)) {
        BelowIsStrict(less, s, IdAt(s.workers, before), IdAt(s.workers, w), IdAt(s.workers, v));
        BelowIsStrict(less, s, IdAt(s.workers, w), IdAt(s.workers, w), IdAt(s.workers, w));
      }
    } else {
      w := last;
      BelowIsStrict(less, s, IdAt(s.workers, w), IdAt(s.workers, w), IdAt(s.workers, w));
      assert forall v: Worker :: v < m && Busy(s.workers, v) ==> v == last;
    }
  }

  /** In a stuck state every lock with a waiter is held. */
  lemma HolderExists(s: State, w: Worker)
    requires Inv(s) && WorkersStuck(s) && IsWaiting(s.workers, w)
    ensures LockOf(s.locks, s.workers[w].item.lockKey).holder.Some?
  {
    hide StoreOk, ItemsKnown, AwaitsKnown, PlacesRight, StatusesFit, LogRight, Fifo;
    var k := s.workers[w].item.lockKey;
    var lock := LockOf(s.locks, k);
    assert LockMatches(s.workers, lock, k);
    assert w in lock.waiters;
    assert lock.waiters[0] in lock.waiters;
    assert !Enabled(s, Grant(lock.waiters[0]));
  }

  /** In a stuck state every executing handler awaits some unfinished run. */
  lemma AwaitedIsUnfinished(s: State, w: Worker) returns (c: RunId)
    requires Inv(s) && WorkersStuck(s) && IsExecuting(s.workers, w)
    requires s.workers[w].item.runId in s.store.jobs
    ensures ResultWait(s, w, c)
  {
    hide ItemsKnown, PlacesRight, StatusesFit, LogRight, LocksMatch, Fifo;
    assert !Enabled(s, Finish(w, Returned(NoneValue), 0.0));
    c :| c in s.workers[w].awaiting;
    assert !Enabled(s, Resume(w, c));
    assert JobOk(s.store.jobs[c]);
  }

  lemma AwaitedPlace(s: State, w: Worker, c: RunId)
    requires Inv(s) && ResultWait(s, w, c)
    ensures c in s.places
    ensures s.places[c] == Queued
            || (s.places[c].AtWorker? && Busy(s.workers, s.places[c].w) && IdAt(s.workers, s.places[c].w) == c)
  {
    hide StoreOk, ItemsKnown, AwaitsKnown, LogRight, LocksMatch, Fifo;
    assert StatusFits(s, c);
  }

  /** In a stuck state the highest busy worker executes a parent that awaits a child nobody has taken up. */
  lemma StuckAwaitsQueuedChild(less: KeyOrder, s: State) returns (w: Worker, c: RunId)
    requires Inv(s) && Ordered(less, s) && WorkersStuck(s) && exists v: Worker :: Busy(s.workers, v)
    ensures ResultWait(s, w, c) && c in s.places && s.places[c] == Queued
  {
    hide Inv, Below, Strict, AwaitsOwnChildren, WorkersStuck;
    w := HighestBusy(less, s, |s.workers|);
    if IsWaiting(s.workers, w) {
      HolderExists(s, w);
      LockWaitGoesUp(less, s, w, LockOf(s.locks, s.workers[w].item.lockKey).holder.value);
      assert false;
    }
    ExecutingIsRunning(s, w);
    c := AwaitedIsUnfinished(s, w);
    ResultWaitGoesUp(less, s, w, c);
    AwaitedPlace(s, w, c);
  }

  lemma QueuedIsInQueue(s: State, c: RunId)
    requires Inv(s) && c in s.places && s.places[c] == Queued
    ensures s.queue != []
  {
    hide StoreOk, ItemsKnown, AwaitsKnown, StatusesFit, LogRight, LocksMatch, Fifo;
  }

  lemma StuckWithQueueIsFull(s: State)
    requires WorkersStuck(s) && s.queue != []
    ensures forall v: Worker :: v < |s.workers| ==> Busy(s.workers, v)
    ensures InFlight(s) > |s.workers|
  {
    assert forall v: Worker :: v < |s.workers| && !Busy(s.workers, v) ==> Enabled(s, Dequeue(v));
    AllBusyCount(s.workers);
  }

  /**
   * With no more items in flight than workers, a state no worker can leave has everything done, whatever handlers
   * await of their children.
   */
  lemma StuckWithRoomIsDone(less: KeyOrder, s: State)
    requires Inv(s) && Ordered(less, s) && |s.workers| >= 1 && InFlight(s) <= |s.workers| && WorkersStuck(s)
    ensures AllDone(s)
  {
    hide Inv, Ordered, WorkersStuck, AllDone, InFlight;
    if exists v: Worker :: Busy(s.workers, v) {
      var w, c := StuckAwaitsQueuedChild(less, s);
      QueuedIsInQueue(s, c);
    }
    if s.queue != [] {
      StuckWithQueueIsFull(s);
    } else {
      assert forall w :: 0 <= w < |s.workers| ==> s.workers[w] == Idle by {
        forall w: Worker | w < |s.workers| ensures s.workers[w] == Idle { assert !Busy(s.workers, w); }
      }
      AllIdleCost(s.workers);
      NoWorkIsDone(s);
    }
  }
}
