/** Every worker action makes progress; if handlers do not nest, nothing is stuck until all is done. */
module Completion {
  import opened Basics
  import opened Jobs
  import opened Kernel
  import opened Invariants
  import opened Actions
  import opened Safety
  import Retention

  predicate WorkerAction(a: Action) {
    a.Dequeue? || a.Grant? || a.Finish? || a.Resume?
  }

  function PhaseCost(phase: Phase): nat {
    match phase
    case Idle => 0
    case Waiting(_, _) => 2
    case Executing(_, awaiting) => 1 + |awaiting|
  }

  function WorkersCost(ws: seq<Phase>): nat {
    if ws == [] then 0 else PhaseCost(ws[0]) + WorkersCost(ws[1..])
  }

  /** Queued items weigh three, lock waiters two, executing items one and one for each run they await. */
  function Work(s: State): nat {
    3 * |s.queue| + WorkersCost(s.workers)
  }

  lemma {:induction false} WorkersCostUpdate(ws: seq<Phase>, w: Worker, phase: Phase)
    requires w < |ws|
    ensures WorkersCost(ws[w := phase]) + PhaseCost(ws[w]) == WorkersCost(ws) + PhaseCost(phase)
  {
    if w > 0 {
      assert ws[w := phase][1..] == ws[1..][w - 1 := phase];
      WorkersCostUpdate(ws[1..], w - 1, phase);
    } else {
      assert ws[0 := phase][1..] == ws[1..];
    }
  }

  /** No handler is waiting for a child. */
  ghost predicate NoneAwaits(s: State) {
    forall w: Worker :: IsExecuting(s.workers, w) ==> s.workers[w].awaiting == {}
  }

  /** Worker actions use up work; nothing but a submission and a new await adds any. */
  lemma ActionWork(s: State, a: Action)
    requires Enabled(s, a) && !a.Submit? && !a.Await?
    ensures WorkerAction(a) ==> Work(Next(s, a)) < Work(s)
    ensures !WorkerAction(a) ==> Work(Next(s, a)) == Work(s)
  {
    hide WorkersCost, StartJob, SettleJob, CancelJob, AbandonJob, CleanedIds, Skips, Pass;
    match a
    case Dequeue(w) => DequeueWork(s, w);
    case Grant(w) => GrantWork(s, w);
    case Finish(w, _, _) => WorkersCostUpdate(s.workers, w, Idle);
    case Resume(w, child) => ResumeWork(s, w, child);
    case _ =>
  }

  lemma DequeueWork(s: State, w: Worker)
    requires Enabled(s, Dequeue(w))
    ensures Work(Next(s, Dequeue(w))) < Work(s)
  {
    hide WorkersCost, StartJob, Skips;
    WorkersCostUpdate(s.workers, w, Next(s, Dequeue(w)).workers[w]);
  }

  lemma GrantWork(s: State, w: Worker)
    requires Enabled(s, Grant(w))
    ensures Work(Next(s, Grant(w))) < Work(s)
  {
    hide WorkersCost, StartJob, Skips;
    WorkersCostUpdate(s.workers, w, Next(s, Grant(w)).workers[w]);
  }

  lemma ResumeWork(s: State, w: Worker, child: RunId)
    requires Enabled(s, Resume(w, child))
    ensures Work(Next(s, Resume(w, child))) < Work(s)
  {
    hide WorkersCost;
    WorkersCostUpdate(s.workers, w, s.workers[w].(awaiting := s.workers[w].awaiting - {child}));
  }

  function WorkerSteps(acts: seq<Action>): nat {
    if acts == [] then 0 else (if WorkerAction(acts[0]) then 1 else 0) + WorkerSteps(acts[1..])
  }

  ghost predicate Closed(acts: seq<Action>) {
    forall i :: 0 <= i < |acts| ==> !acts[i].Submit? && !acts[i].Await?
  }

  /**
   * However cancels, pops, cleanups and cancelled waiters interleave, the workers take at most Work(s) steps before
   * something is submitted or awaited; resuming handlers are among those steps.
   */
  lemma {:induction false} WorkBoundsWorkers(s: State, acts: seq<Action>)
    requires Legal(s, acts) && Closed(acts)
    ensures WorkerSteps(acts) + Work(Exec(s, acts)) <= Work(s)
    decreases |acts|
  {
    if acts != [] {
      ActionWork(s, acts[0]);
      WorkBoundsWorkers(Next(s, acts[0]), acts[1..]);
    }
  }

  lemma NoneAwaitsNext(s: State, a: Action)
    requires NoneAwaits(s) && Enabled(s, a) && !a.Await?
    ensures NoneAwaits(Next(s, a))
  {
    forall w: Worker | IsExecuting(Next(s, a).workers, w)
      ensures Next(s, a).workers[w].awaiting == {}
    {
      assert IsExecuting(s.workers, w) ==> s.workers[w].awaiting == {};
    }
  }

  lemma {:induction false} NoneAwaitsExec(s: State, acts: seq<Action>)
    requires NoneAwaits(s) && Legal(s, acts) && forall i :: 0 <= i < |acts| ==> !acts[i].Await?
    ensures NoneAwaits(Exec(s, acts))
    decreases |acts|
  {
    if acts != [] {
      NoneAwaitsNext(s, acts[0]);
      NoneAwaitsExec(Next(s, acts[0]), acts[1..]);
    }
  }

  // ---------------------------------------------------------------- items in flight

  function BusyCount(ws: seq<Phase>): nat {
    if ws == [] then 0 else (if ws[0].Idle? then 0 else 1) + BusyCount(ws[1..])
  }

  /**
   * The work items queued or at a worker. Items, not active runs: one whose run was cancelled while it waited for
   * its lock still occupies its worker.
   */
  function InFlight(s: State): nat {
    |s.queue| + BusyCount(s.workers)
  }

  lemma {:induction false} BusyCountUpdate(ws: seq<Phase>, w: Worker, phase: Phase)
    requires w < |ws|
    ensures BusyCount(ws[w := phase]) + (if ws[w].Idle? then 0 else 1)
            == BusyCount(ws) + (if phase.Idle? then 0 else 1)
  {
    if w > 0 {
      assert ws[w := phase][1..] == ws[1..][w - 1 := phase];
      BusyCountUpdate(ws[1..], w - 1, phase);
    } else {
      assert ws[0 := phase][1..] == ws[1..];
    }
  }

  lemma {:induction false} AllBusyCount(ws: seq<Phase>)
    requires forall w: Worker :: w < |ws| ==> Busy(ws, w)
    ensures BusyCount(ws) == |ws|
  {
    if ws != [] {
      forall w: Worker | w < |ws[1..]| ensures Busy(ws[1..], w) {
        assert Busy(ws, w + 1);
      }
      assert Busy(ws, 0);
      AllBusyCount(ws[1..]);
    }
  }

  /** Only a submission puts more items in flight. */
  lemma InFlightFalls(s: State, a: Action)
    requires Enabled(s, a) && !a.Submit?
    ensures InFlight(Next(s, a)) <= InFlight(s)
  {
    match a
    case Dequeue(w) => BusyCountUpdate(s.workers, w, Next(s, a).workers[w]);
    case Grant(w) => BusyCountUpdate(s.workers, w, Next(s, a).workers[w]);
    case Finish(w, _, _) => BusyCountUpdate(s.workers, w, Idle);
    case Await(w, child) =>
      BusyCountUpdate(s.workers, w, s.workers[w].(awaiting := s.workers[w].awaiting + {child}));
    case Resume(w, child) =>
      BusyCountUpdate(s.workers, w, s.workers[w].(awaiting := s.workers[w].awaiting - {child}));
    case _ =>
  }

  /** No worker can take a step. */
  ghost predicate WorkersStuck(s: State) {
    forall a: Action :: WorkerAction(a) ==> !Enabled(s, a)
  }

  /** The queue is empty, every worker idle, every run terminal and every future done. */
  ghost predicate AllDone(s: State) {
    && s.queue == []
    && (forall w: Worker :: !Busy(s.workers, w))
    && (forall id :: id in s.store.jobs ==>
          !s.store.jobs[id].status.Active() && s.store.jobs[id].future != Unresolved)
  }

  /** A state in which some worker is busy, or idle with work queued, always lets a worker step. */
  lemma SomeWorkerSteps(s: State) returns (a: Action)
    requires Inv(s) && NoneAwaits(s) && |s.workers| >= 1 && Work(s) > 0
    ensures WorkerAction(a) && !a.Resume? && Enabled(s, a)
  {
    if w: Worker :| IsExecuting(s.workers, w) {
      ExecutingIsRunning(s, w);
      return Finish(w, Returned(NoneValue), 0.0);
    }
    if w: Worker :| IsWaiting(s.workers, w) {
      a := WaiterSteps(s, w);
      return;
    }
    assert forall w :: 0 <= w < |s.workers| ==> s.workers[w] == Idle by {
      forall w: Worker | w < |s.workers| ensures s.workers[w] == Idle {
        assert !IsExecuting(s.workers, w) && !IsWaiting(s.workers, w);
      }
    }
    AllIdleCost(s.workers);
    return Dequeue(0);
  }

  lemma {:induction false} AllIdleCost(ws: seq<Phase>)
    requires forall w :: 0 <= w < |ws| ==> ws[w] == Idle
    ensures WorkersCost(ws) == 0
  {
    if ws != [] { AllIdleCost(ws[1..]); }
  }

  /** When a lock has waiters it is held by an executing worker, or its first waiter may take it. */
  lemma WaiterSteps(s: State, w: Worker) returns (a: Action)
    requires Inv(s) && IsWaiting(s.workers, w)
    requires forall v: Worker :: !IsExecuting(s.workers, v)
    ensures a.Grant? && Enabled(s, a)
  {
    hide StoreOk, ItemsKnown, AwaitsKnown, PlacesRight, StatusesFit, LogRight, Fifo;
    var k := s.workers[w].item.lockKey;
    var lock := LockOf(s.locks, k);
    assert LockMatches(s.workers, lock, k);
    assert w in lock.waiters;
    match lock.holder {
      case Some(v) => assert false;
      case None =>
    }
    assert lock.waiters[0] in lock.waiters;
    a := Grant(lock.waiters[0]);
  }

  /** With a worker and no nesting, being stuck means being done. */
  lemma StuckIsDone(s: State)
    requires Inv(s) && NoneAwaits(s) && |s.workers| >= 1 && WorkersStuck(s)
    ensures AllDone(s)
  {
    if Work(s) > 0 {
      var a := SomeWorkerSteps(s);
      assert false;
    }
    NoWorkIsDone(s);
  }

  lemma NoWorkIsDone(s: State)
    requires Inv(s) && Work(s) == 0
    ensures AllDone(s)
  {
    hide LocksMatch, Fifo, LogRight, ItemsKnown, AwaitsKnown;
    NoCostMeansIdle(s.workers);
    forall id | id in s.store.jobs
      ensures !s.store.jobs[id].status.Active() && s.store.jobs[id].future != Unresolved
    {
      assert StatusFits(s, id);
      assert s.places[id] == Gone;
      assert JobOk(s.store.jobs[id]);
    }
  }

  lemma {:induction false} NoCostMeansIdle(ws: seq<Phase>)
    requires WorkersCost(ws) == 0
    ensures forall w: Worker :: !Busy(ws, w)
  {
    if ws != [] {
      NoCostMeansIdle(ws[1..]);
      forall w: Worker ensures !Busy(ws, w) {
        if 0 < w < |ws| {
          assert ws[w] == ws[1..][w - 1];
          assert !Busy(ws[1..], w - 1);
        }
      }
    }
  }

  /** Every maximal run of the workers ends with everything done. */
  lemma MaximalRunsComplete(limits: Retention.Limits, n: nat, acts: seq<Action>, s: State)
    requires n >= 1 && ReachableBy(limits, n, acts, s) && WorkersStuck(s)
    requires forall i :: 0 <= i < |acts| ==> !acts[i].Await?
    ensures AllDone(s)
  {
    NoneAwaitsExec(Init(limits, n), acts);
    WorkerCountFixed(Init(limits, n), acts);
    assert Reachable(s);
    ReachableInv(s);
    hide Inv;
    StuckIsDone(s);
  }

  lemma {:induction false} WorkerCountFixed(s: State, acts: seq<Action>)
    requires Legal(s, acts)
    ensures |Exec(s, acts).workers| == |s.workers|
    decreases |acts|
  {
    if acts != [] { WorkerCountFixed(Next(s, acts[0]), acts[1..]); }
  }

  lemma NextKeepsWorkers(s: State, a: Action)
    requires Enabled(s, a)
    ensures |Next(s, a).workers| == |s.workers|
  {
  }

  lemma NoActions(s: State)
    ensures Legal(s, []) && Exec(s, []) == s
  {
  }

  lemma ExecStep(s: State, a: Action, rest: seq<Action>)
    requires Enabled(s, a) && Legal(Next(s, a), rest)
    ensures Legal(s, [a] + rest) && Exec(s, [a] + rest) == Exec(Next(s, a), rest)
  {
    assert ([a] + rest)[1..] == rest;
  }

  /** And the workers can always get there, in at most Work(s) steps. */
  lemma {:induction false} CanAlwaysComplete(s: State) returns (acts: seq<Action>)
    requires Inv(s) && NoneAwaits(s) && |s.workers| >= 1
    ensures Legal(s, acts) && |acts| <= Work(s) && AllDone(Exec(s, acts))
    ensures forall i :: 0 <= i < |acts| ==> WorkerAction(acts[i])
    decreases Work(s)
  {
    hide Inv, AllDone, NoneAwaits, Work, Enabled, Next, Legal, Exec;
    if Work(s) == 0 {
      NoWorkIsDone(s);
      NoActions(s);
      return [];
    }
    var a := SomeWorkerSteps(s);
    ActionWork(s, a);
    NextKeepsInv(s, a);
    NoneAwaitsNext(s, a);
    NextKeepsWorkers(s, a);
    var rest := CanAlwaysComplete(Next(s, a));
    acts := [a] + rest;
    ExecStep(s, a, rest);
  }
}
