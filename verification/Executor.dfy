/**
 * The executor itself, updated in place. Each method is one uninterrupted stretch of its event loop, and is proved to
 * take exactly the step system's action; so everything proved of the step system holds of the class.
 */
module Executors {
  import opened Basics
  import opened Jobs
  import opened Kernel
  import opened Invariants
  import opened Actions
  import opened JobStores
  import Retention

  class CommandExecutor {
    const store: JobStore
    var queue: seq<Invocation>
    var workers: seq<Phase>
    var locks: map<LockKey, Lock>
    ghost var submitted: seq<Invocation>
    ghost var admitted: seq<Admission>
    ghost var withdrawn: set<RunId>
    ghost var places: map<RunId, Place>

    ghost function View(): State
      reads this, store
    {
      State(store.View(), queue, workers, locks, submitted, admitted, withdrawn, places)
    }

    /** start: an empty queue and n idle workers. */
    constructor (limits: Retention.Limits, n: nat)
      ensures View() == Init(limits, n) && Inv(View()) && fresh(store)
    {
      store := new JobStore(limits);
      queue := [];
      workers := seq(n, _ => Idle);
      locks := map[];
      submitted, admitted, withdrawn, places := [], [], {}, map[];
      new;
      InitInv(limits, n);
    }

    method Submit(inv: Invocation)
      requires Inv(View()) && inv.runId !in store.jobs
      modifies this, store
      ensures Inv(View()) && View() == Next(old(View()), Action.Submit(inv))
    {
      hide Inv;
      NextKeepsInv(View(), Action.Submit(inv));
      store.CreateRun(inv);
      queue := queue + [inv];
      submitted := submitted + [inv];
      places := places[inv.runId := Queued];
    }

    method Cancel(id: RunId, now: Time) returns (reply: Reply)
      requires Inv(View())
      modifies this, store
      ensures Inv(View()) && View() == Next(old(View()), Action.Cancel(id, now))
      ensures reply == if id in old(store.stored) then CancelReply(old(store.jobs[id])) else Missing
      ensures id in old(store.stored) && id in old(store.jobs) ==>
                && id in store.jobs && CancelledAs(old(store.jobs[id]), store.jobs[id], now)
                && store.jobs[id].word == CancelWord(old(store.jobs[id]))
    {
      hide Inv, StoreOk, CancelJob;
      StoredIsKnown(View());
      NextKeepsInv(View(), Action.Cancel(id, now));
      reply := CancelAndTell(id, now);
      if reply == CancelledReply {
        withdrawn := withdrawn + {id};
      }
    }

    /** JobStore.cancel, then the event its answer calls for. */
    method CancelAndTell(id: RunId, now: Time) returns (reply: Reply)
      requires store.stored <= store.jobs.Keys
      modifies store`jobs
      ensures store.View() == CancelIn(old(store.View()), id, now)
      ensures reply == if id in store.stored then CancelReply(old(store.jobs[id])) else Missing
      ensures id in store.stored ==>
                && id in store.jobs && CancelledAs(old(store.jobs[id]), store.jobs[id], now)
                && store.jobs[id].word == CancelWord(old(store.jobs[id]))
    {
      ghost var before := store.jobs;
      reply := store.CancelRun(id, now);
      if reply == CancelledReply {
        store.Emit(id, CancelledLabel);
      } else if reply == Requested {
        store.Emit(id, CancelRequested);
      }
      assert id in store.stored ==> store.jobs == before[id := CancelJob(before[id], now)];
    }

    /** Whether _execute_work_item starts the handler: the run was found, and nobody cancelled it meanwhile. */
    predicate MayStart(item: Invocation, found: bool)
      requires item.runId in store.jobs
      reads store
    {
      found && store.jobs[item.runId].status != Cancelled
    }

    /** _execute_work_item up to the handler's first suspension, with the lock already held or none needed. */
    method Execute(w: Worker, item: Invocation, found: bool)
      requires w < |workers| && item.runId in store.jobs
      modifies this`workers, this`locks, this`admitted, this`places, store`jobs
      ensures View() == Pass(old(View()), w, item, found)
    {
      admitted := admitted + [Admission(item, MayStart(item, found))];
      if !MayStart(item, found) {
        workers := workers[w := Idle];
        places := places[item.runId := Gone];
        return;
      }
      if item.lockKey != "" {
        locks := locks[item.lockKey := LockOf(locks, item.lockKey).(holder := Some(w))];
      }
      Begin(item.runId);
      workers := workers[w := Executing(item, {})];
      places := places[item.runId := AtWorker(w)];
    }

    /** The status RUNNING, and the event that announces it. */
    method Begin(id: RunId)
      requires id in store.jobs
      modifies store`jobs
      ensures store.jobs == old(store.jobs)[id := StartJob(old(store.jobs[id]))]
    {
      store.jobs := store.jobs[id := store.jobs[id].(status := Running)];
      store.Emit(id, Start);
    }

    /** Worker w takes the head of the queue; it starts the item, skips it, or joins the line for its lock. */
    method WorkerDequeues(w: Worker)
      requires Inv(View()) && Enabled(View(), Dequeue(w))
      modifies this, store
      ensures Inv(View()) && View() == Next(old(View()), Dequeue(w))
    {
      hide Inv, Next;
      QueuedItemKnown(View());
      NextKeepsInv(View(), Dequeue(w));
      TakeHead(w);
    }

    method TakeHead(w: Worker)
      requires w < |workers| && workers[w].Idle? && queue != [] && queue[0].runId in store.jobs
      modifies this, store
      ensures View() == Next(old(View()), Dequeue(w))
    {
      var item := queue[0];
      queue := queue[1..];
      var found := item.runId in store.stored;
      var lock := LockOf(locks, item.lockKey);
      if item.lockKey != "" && (lock.holder.Some? || lock.waiters != []) {
        locks := locks[item.lockKey := lock.(waiters := lock.waiters + [w])];
        workers := workers[w := Waiting(item, found)];
        places := places[item.runId := AtWorker(w)];
      } else {
        Execute(w, item, found);
      }
    }

    /** The lock that worker w is first in line for is free, and w resumes with it. */
    method WorkerGetsLock(w: Worker)
      requires Inv(View()) && Enabled(View(), Grant(w))
      modifies this, store
      ensures Inv(View()) && View() == Next(old(View()), Grant(w))
    {
      hide Inv, Pass, StartJob;
      BusyItemKnown(View(), w);
      NextKeepsInv(View(), Grant(w));
      var item, found := workers[w].item, workers[w].found;
      var lock := LockOf(locks, item.lockKey);
      locks := locks[item.lockKey := lock.(waiters := lock.waiters[1..])];
      Execute(w, item, found);
    }

    /** The handler at worker w ends: _execute_work_item's except and finally clauses, then the lock is released. */
    method HandlerEnds(w: Worker, outcome: Outcome, now: Time)
      requires Inv(View()) && Enabled(View(), Finish(w, outcome, now))
      modifies this, store
      ensures Inv(View()) && View() == Next(old(View()), Finish(w, outcome, now))
      ensures var id := old(workers[w].item.runId);
              && id in old(store.jobs) && id in store.jobs
              && EndedAs(old(store.jobs[id]), store.jobs[id], outcome, now)
      ensures forall id :: id in old(store.stored) && id in store.jobs ==>
                (id in store.stored <==> Stays(Store(store.limits, store.jobs, old(store.stored)), now, id))
    {
      hide Inv, StoreOk, CleanedIds, SettleJob, EndedAs, Stays;
      SettleEndsAs(store.jobs[workers[w].item.runId], outcome, now);
      StoredIsKnown(View());
      SettledStoreOk(View(), w, outcome, now);
      NextKeepsInv(View(), Finish(w, outcome, now));
      SettleRun(workers[w].item.runId, outcome, now);
      store.Cleanup(now);
      Release(w);
    }

    /** Leaving `async with lock` (if the item named one) and going back to the queue. */
    method Release(w: Worker)
      requires IsExecuting(workers, w)
      modifies this`workers, this`locks, this`places
      ensures workers == old(workers)[w := Idle]
      ensures places == old(places)[old(workers[w].item.runId) := Gone]
      ensures locks == if old(workers[w].item.lockKey) == "" then old(locks)
                       else old(locks)[old(workers[w].item.lockKey) :=
                                         LockOf(old(locks), old(workers[w].item.lockKey)).(holder := None)]
    {
      var item := workers[w].item;
      if item.lockKey != "" {
        locks := locks[item.lockKey := LockOf(locks, item.lockKey).(holder := None)];
      }
      workers := workers[w := Idle];
      places := places[item.runId := Gone];
    }

    method SettleRun(id: RunId, outcome: Outcome, now: Time)
      requires id in store.jobs && id in store.stored && store.stored <= store.jobs.Keys
      modifies store`jobs
      ensures store.jobs == old(store.jobs)[id := SettleJob(old(store.jobs[id]), outcome, now)]
    {
      ghost var before := store.jobs;
      RecordOutcome(id, outcome);
      store.ResolveFuture(id, outcome);
      store.jobs := store.jobs[id := store.jobs[id].(finishedAt := Some(now))];
      assert store.jobs[id] == SettleJob(before[id], outcome, now);
    }

    /** The except clauses: result or error, final status, and the event that announces it. */
    method RecordOutcome(id: RunId, outcome: Outcome)
      requires id in store.jobs
      modifies store`jobs
      ensures id in store.jobs && store.jobs == old(store.jobs)[id := store.jobs[id]]
      ensures forall now ::
                SettleJob(old(store.jobs[id]), outcome, now)
                == store.jobs[id].(future := Resolve(store.jobs[id].future, outcome), finishedAt := Some(now))
    {
      match outcome {
        case Returned(v) =>
          store.jobs := store.jobs[id := store.jobs[id].(result := v)];
          SetStatus(id, Succeeded, Success);
        case Raised(fault) =>
          store.jobs := store.jobs[id := store.jobs[id].(fault := Some(fault))];
          if fault == TimeoutError {
            SetStatus(id, TimedOut, Timeout);
          } else if fault == CancelledError || fault.ConsoleExit? {
            SetStatus(id, Cancelled, CancelledLabel);
          } else {
            SetStatus(id, Failed, Failure);
          }
      }
    }

    /** The final status, and the event that announces it. */
    method SetStatus(id: RunId, status: Status, mark: Label)
      requires id in store.jobs
      modifies store`jobs
      ensures store.jobs
           == old(store.jobs)[id := old(store.jobs[id]).(status := status, word := old(store.jobs[id]).word + [mark])]
    {
      store.jobs := store.jobs[id := store.jobs[id].(status := status)];
      store.Emit(id, mark);
    }

    /** A handler awaits the result of its child. */
    method HandlerAwaits(w: Worker, child: RunId)
      requires Inv(View()) && Enabled(View(), Await(w, child))
      modifies this`workers
      ensures Inv(View()) && View() == Next(old(View()), Await(w, child))
    {
      hide Inv;
      NextKeepsInv(View(), Await(w, child));
      workers := workers[w := workers[w].(awaiting := workers[w].awaiting + {child})];
    }

    method ChildIsDone(w: Worker, child: RunId)
      requires Inv(View()) && Enabled(View(), Resume(w, child))
      modifies this`workers
      ensures Inv(View()) && View() == Next(old(View()), Resume(w, child))
    {
      hide Inv;
      NextKeepsInv(View(), Resume(w, child));
      workers := workers[w := workers[w].(awaiting := workers[w].awaiting - {child})];
    }

    /** JobStore.result for a run whose future is done, or that has none: what the caller gets. */
    method Result(id: RunId) returns (answer: Outcome)
      requires Inv(View()) && (id in store.stored ==> store.jobs[id].future != Unresolved)
      ensures id !in store.stored ==> answer == Returned(NoneValue)
      ensures id in store.stored && store.jobs[id].future != Abandoned ==>
                && answer == ByState(store.jobs[id])
                && answer == if store.jobs[id].fault.Some? then Raised(store.jobs[id].fault.value)
                             else Returned(store.jobs[id].result)
      ensures id in store.stored && store.jobs[id].future == Abandoned ==> answer == Raised(CancelledError)
    {
      hide ItemsKnown, AwaitsKnown, PlacesRight, StatusesFit, LogRight, LocksMatch, Fifo;
      if id !in store.stored {
        return Returned(NoneValue);
      }
      return match store.jobs[id].future
        case HasResult(v) => Returned(v)
        case HasFault(f) => Raised(f)
        case _ => Raised(CancelledError);
    }

    method PopRun(id: RunId)
      requires Inv(View()) && Enabled(View(), Action.PopRun(id))
      modifies store
      ensures Inv(View()) && View() == Next(old(View()), Action.PopRun(id))
    {
      hide Inv, StoreOk;
      StoredIsKnown(View());
      NextKeepsInv(View(), Action.PopRun(id));
      store.PopRun(id);
    }

    /** A task awaiting JobStore.result is cancelled, and with it the future it awaits. */
    method WaiterIsCancelled(id: RunId)
      requires Inv(View()) && Enabled(View(), AbandonFuture(id))
      modifies store
      ensures Inv(View()) && View() == Next(old(View()), AbandonFuture(id))
      ensures id in store.jobs
      ensures store.jobs[id] == if old(store.jobs[id]).future != Unresolved then old(store.jobs[id])
                                else old(store.jobs[id]).(future := Abandoned)
    {
      hide Inv, AbandonJob;
      NextKeepsInv(View(), AbandonFuture(id));
      store.Abandon(id);
    }

    /** JobStore.cleanup called on its own. */
    method CleanUp(now: Time)
      requires Inv(View())
      modifies store
      ensures Inv(View()) && View() == Next(old(View()), Action.Cleanup(now))
      ensures store.jobs == old(store.jobs) && store.stored <= old(store.stored)
      ensures forall id :: id in old(store.stored) && id in old(store.jobs) ==>
                (id in store.stored <==> Stays(old(store.View()), now, id))
    {
      hide Inv, StoreOk, CleanedIds, Stays;
      StoredIsKnown(View());
      NextKeepsInv(View(), Action.Cleanup(now));
      store.Cleanup(now);
    }
  }

  lemma BusyItemKnown(s: State, w: Worker)
    requires Inv(s) && Busy(s.workers, w)
    ensures Known(s.store.jobs, s.workers[w].item)
  {
  }

  lemma QueuedItemKnown(s: State)
    requires Inv(s) && s.queue != []
    ensures Known(s.store.jobs, s.queue[0])
  {
  }

  lemma StoredIsKnown(s: State)
    requires Inv(s)
    ensures s.store.stored <= s.store.jobs.Keys && StoreOk(s.store)
    ensures forall w: Worker :: IsExecuting(s.workers, w) ==> s.workers[w].item.runId in s.store.stored
  {
    hide JobOk, LocksMatch, Fifo, LogRight;
    forall w: Worker | IsExecuting(s.workers, w) ensures s.workers[w].item.runId in s.store.stored {
      assert Busy(s.workers, w) && IdAt(s.workers, w) == s.workers[w].item.runId;
      assert StatusFits(s, s.workers[w].item.runId);
    }
  }

  lemma SettledStoreOk(s: State, w: Worker, outcome: Outcome, now: Time)
    requires Inv(s) && Enabled(s, Finish(w, outcome, now))
    ensures StoreOk(Put(s.store, s.workers[w].item.runId,
                        SettleJob(s.store.jobs[s.workers[w].item.runId], outcome, now)))
  {
    hide Inv;
    SettledKeepsInv(s, w, outcome, now);
    InvStoreOk(Settled(s, w, outcome, now));
  }

  lemma InvStoreOk(s: State)
    requires Inv(s)
    ensures StoreOk(s.store)
  {
  }
}
