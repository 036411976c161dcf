/** The job store, updated in place; each method is proved against the value operations in Jobs. */
module JobStores {
  import opened Basics
  import opened Jobs
  import Retention
  import Passes = Cleanup

  /**
   * `jobs` is the heap of run objects by their fresh ids: a worker's reference to a run is its id, which stays good
   * after the run is popped. `stored` is the domain of the store's dictionaries.
   */
  class JobStore {
    const limits: Retention.Limits
    var jobs: map<RunId, Job>
    var stored: set<RunId>

    function View(): Store
      reads this
    {
      Store(limits, jobs, stored)
    }

    constructor (limits: Retention.Limits)
      ensures View() == EmptyStore(limits)
    {
      this.limits := limits;
      jobs := map[];
      stored := {};
    }

    /** create_run followed by set_future, as submit does on the loop. */
    method CreateRun(inv: Invocation)
      modifies this
      ensures View() == Create(old(View()), inv)
      ensures inv.runId in stored && inv.runId in jobs
      ensures jobs[inv.runId] == Job(inv, Pending, NoneValue, None, None, Unresolved, false, [])
    {
      jobs := jobs[inv.runId := NewJob(inv)];
      stored := stored + {inv.runId};
    }

    /** The executor publishes one of its own state events. */
    method Emit(id: RunId, mark: Label)
      requires id in jobs
      modifies this`jobs
      ensures jobs == old(jobs)[id := old(jobs[id]).(word := old(jobs[id]).word + [mark])]
    {
      jobs := jobs[id := jobs[id].(word := jobs[id].word + [mark])];
    }

    /** JobStore.cancel alone, without the executor's event. */
    method CancelRun(id: RunId, now: Time) returns (reply: Reply)
      requires stored <= jobs.Keys
      modifies this`jobs
      ensures id !in stored ==> reply == Missing && jobs == old(jobs)
      ensures id in stored ==>
                && reply == CancelReply(old(jobs[id]))
                && jobs == old(jobs)[id := CancelJob(old(jobs[id]), now).(word := old(jobs[id]).word)]
      ensures id in stored ==>
                && reply == (match old(jobs[id]).status
                             case Pending => CancelledReply
                             case Running => Requested
                             case _ => Noop)
                && CancelledAs(old(jobs[id]), jobs[id], now) && jobs[id].word == old(jobs[id]).word
    {
      if id !in stored {
        return Missing;
      }
      jobs := jobs[id := jobs[id].(cancelFlag := true)];
      if jobs[id].status == Pending {
        Withdraw(id, now);
        return CancelledReply;
      }
      if jobs[id].status == Running {
        return Requested;
      }
      return Noop;
    }

    /** The branch of cancel for a run that has not started. */
    method Withdraw(id: RunId, now: Time)
      requires id in jobs
      modifies this`jobs
      ensures jobs == old(jobs)[id := old(jobs[id]).(
                        status := Cancelled, finishedAt := Some(now), fault := Some(CancelledError),
                        future := Resolve(old(jobs[id]).future, Raised(CancelledError)))]
    {
      jobs := jobs[id := jobs[id].(status := Cancelled)];
      jobs := jobs[id := jobs[id].(finishedAt := Some(now))];
      jobs := jobs[id := jobs[id].(fault := Some(CancelledError))];
      if jobs[id].future == Unresolved {
        jobs := jobs[id := jobs[id].(future := HasFault(CancelledError))];
      }
    }

    /** Somebody cancels the future he waits on; a future that is done stays as it is. */
    method Abandon(id: RunId)
      requires id in jobs
      modifies this`jobs
      ensures jobs == old(jobs)[id := AbandonJob(old(jobs[id]))]
      ensures jobs[id] == if old(jobs[id]).future == Unresolved then old(jobs[id]).(future := Abandoned)
                          else old(jobs[id])
    {
      if jobs[id].future == Unresolved {
        jobs := jobs[id := jobs[id].(future := Abandoned)];
      }
    }

    /** resolve_future behind its done() guard; a run that is not stored has no registered future. */
    method ResolveFuture(id: RunId, outcome: Outcome)
      requires stored <= jobs.Keys
      modifies this`jobs
      ensures jobs == if id in stored
                      then old(jobs)[id := old(jobs[id]).(future := Resolve(old(jobs[id]).future, outcome))]
                      else old(jobs)
      ensures id in stored ==>
                jobs[id].future == if old(jobs[id]).future != Unresolved then old(jobs[id]).future
                                   else match outcome
                                     case Returned(v) => HasResult(v)
                                     case Raised(f) => HasFault(f)
    {
      if id !in stored || jobs[id].future != Unresolved {
        assert id in stored ==> jobs[id := jobs[id]] == jobs;
        return;
      }
      match outcome {
        case Raised(f) => jobs := jobs[id := jobs[id].(future := HasFault(f))];
        case Returned(v) => jobs := jobs[id := jobs[id].(future := HasResult(v))];
      }
    }

    method PopRun(id: RunId)
      requires stored <= jobs.Keys
      modifies this
      ensures View() == Pop(old(View()), id)
      ensures stored == old(stored) - {id} && jobs.Keys == old(jobs).Keys
      ensures id in old(stored) ==>
                jobs[id] == if old(jobs[id]).future == Unresolved then old(jobs[id]).(future := Abandoned)
                            else old(jobs[id])
    {
      if id !in stored {
        return;
      }
      stored := stored - {id};
      Abandon(id);
    }

    /** Removes exactly what the retention rules do not keep; no removed run's future is ever unresolved. */
    method Cleanup(now: Time)
      requires StoreOk(View())
      modifies this
      ensures View() == Clean(old(View()), now)
      ensures jobs == old(jobs) && stored <= old(stored)
      ensures forall id :: id in old(stored) && id in old(jobs) ==> (id in stored <==> Stays(old(View()), now, id))
    {
      hide Stays, JobOk;
      SnapshotStamped(View());
      forall id | id in stored && id in jobs ensures id in Clean(View(), now).stored <==> Stays(View(), now, id) {
        CleanKeepsWhatStays(View(), now, id);
      }
      var entries := map id | id in stored :: Retention.Entry(jobs[id].status.Active(), jobs[id].finishedAt);
      assert entries == Snapshot(View());
      var removals := Passes.ChooseRemovals(limits, entries, now);
      ghost var kept := Retention.Kept(limits, entries, now);
      assert removals <= stored && stored - removals == kept;
      FinishedFuturesAreDone(View());
      RemoveAll(removals);
    }

    method RemoveAll(removals: set<RunId>)
      requires stored <= jobs.Keys && removals <= stored
      requires forall id :: id in removals ==> jobs[id].future != Unresolved
      modifies this
      ensures jobs == old(jobs) && stored == old(stored) - removals
    {
      var todo := removals;
      while todo != {}
        invariant todo <= removals && jobs == old(jobs) && stored == old(stored) - (removals - todo)
        decreases |todo|
      {
        var id :| id in todo;
        PopRun(id);
        todo := todo - {id};
      }
    }
  }

  lemma FinishedFuturesAreDone(s: Store)
    requires StoreOk(s)
    ensures forall id :: id in s.jobs && !s.jobs[id].status.Active() ==> s.jobs[id].future != Unresolved
  {
  }
}
