/** Mutual exclusion, per-key order, at-most-once execution and the agreement of a run's records. */
module Safety {
  import opened Basics
  import opened Jobs
  import opened Kernel
  import opened Invariants
  import opened Preservation
  import opened Actions
  import Retention

  /** At most one run per non-empty lock key is executing. */
  lemma MutualExclusion(s: State, v: Worker, w: Worker)
    requires Reachable(s) && IsExecuting(s.workers, v) && IsExecuting(s.workers, w)
    requires s.workers[v].item.lockKey == s.workers[w].item.lockKey != ""
    ensures v == w
  {
    ReachableInv(s);
    hide StoreOk, ItemsKnown, AwaitsKnown, PlacesRight, StatusesFit, LogRight, Fifo;
    HoldersDistinct(s.workers, s.locks, v, w);
  }

  /** Same-key items pass their lock in the order in which they were submitted, none overtaken, none lost. */
  lemma PerKeyFifo(s: State, k: LockKey)
    requires Reachable(s) && k != ""
    ensures AllBusy(s.workers, LockOf(s.locks, k).waiters)
    ensures OfKey(Admitted(s.admitted), k) + ItemsOf(s.workers, LockOf(s.locks, k).waiters) + OfKey(s.queue, k)
            == OfKey(s.submitted, k)
    ensures OfKey(Admitted(s.admitted), k) <= OfKey(s.submitted, k)
  {
    ReachableInv(s);
    hide StoreOk, ItemsKnown, AwaitsKnown, PlacesRight, StatusesFit, LogRight, LocksMatch;
    assert FifoAt(s.admitted, s.workers, LockOf(s.locks, k).waiters, s.queue, s.submitted, k);
  }

  /** The handlers started so far, in order. */
  function Starts(log: seq<Admission>): seq<RunId> {
    if log == [] then []
    else Starts(log[..|log| - 1]) + if log[|log| - 1].ran then [log[|log| - 1].item.runId] else []
  }

  lemma {:induction false} StartsComeFromLog(log: seq<Admission>)
    requires forall i, j :: 0 <= i < j < |log| ==> log[i].item.runId != log[j].item.runId
    ensures NoDups(Starts(log))
    ensures forall id :: id in Starts(log) <==> exists i :: 0 <= i < |log| && log[i].item.runId == id && log[i].ran
  {
    if log != [] {
      var front := log[..|log| - 1];
      StartsComeFromLog(front);
      forall id
        ensures id in Starts(log) <==> exists i :: 0 <= i < |log| && log[i].item.runId == id && log[i].ran
      {
        if i :| 0 <= i < |log| && log[i].item.runId == id && log[i].ran {
          assert i < |front| ==> front[i] == log[i];
        }
        if id in Starts(front) {
          var i :| 0 <= i < |front| && front[i].item.runId == id && front[i].ran;
          assert log[i] == front[i];
        }
      }
      var last := log[|log| - 1];
      assert last.ran ==> last.item.runId !in Starts(front) by {
        forall i | 0 <= i < |front| ensures front[i].item.runId != last.item.runId {
          assert log[i] == front[i];
        }
      }
    }
  }

  /** Every handler is invoked at most once, and only that of a run whose own events begin with `start`. */
  lemma HandlersStartOnce(s: State)
    requires Reachable(s)
    ensures NoDups(Starts(s.admitted))
    ensures forall id :: id in Starts(s.admitted) ==> id in s.store.jobs && Started(s.store.jobs[id])
    ensures forall id :: id in Starts(s.admitted) ==> id !in s.withdrawn
  {
    ReachableInv(s);
    hide StoreOk, ItemsKnown, AwaitsKnown, PlacesRight, LocksMatch, Fifo;
    StartsComeFromLog(s.admitted);
    forall id | id in Starts(s.admitted)
      ensures id in s.store.jobs && Started(s.store.jobs[id]) && id !in s.withdrawn
    {
      var i :| 0 <= i < |s.admitted| && s.admitted[i].item.runId == id && s.admitted[i].ran;
      assert EntryRight(s, s.admitted[i]);
    }
  }

  // ---------------------------------------------------------------- one action, then any run

  lemma NextEvolves(s: State, a: Action)
    requires Inv(s) && Enabled(s, a)
    ensures StoreEvolves(s.store, Next(s, a).store) && s.withdrawn <= Next(s, a).withdrawn
  {
    hide Inv, StartJob, SettleJob, CleanedIds, Skips;
    match a
    case Dequeue(w) => DequeueEvolves(s, w);
    case Grant(w) => GrantEvolves(s, w);
    case Finish(w, outcome, now) => FinishEvolves(s, w, outcome, now);
    case Cleanup(now) => CleanEvolves(s.store, now);
    case _ =>
  }

  lemma CleanEvolves(s: Store, now: Time)
    ensures StoreEvolves(s, Clean(s, now))
  {
  }

  /** An item about to pass either was withdrawn or has never been touched. */
  lemma DequeuedIsUntouched(s: State, w: Worker)
    requires Inv(s) && Enabled(s, Dequeue(w))
    ensures var item, found := s.queue[0], s.queue[0].runId in s.store.stored;
            if Skips(s, item, found) then Withdrawn(s, item.runId) else NeverTouched(s, item.runId)
  {
    hide LocksMatch, Fifo, LogRight, JobOk, Withdrawn, NeverTouched, Skips;
    assert Known(s.store.jobs, s.queue[0]) && s.queue[0].runId in s.places;
    hide ItemsKnown, PlacesRight;
    SkipMeansWithdrawn(s, w, s.queue[0], s.queue[0].runId in s.store.stored);
  }

  lemma GrantedIsUntouched(s: State, w: Worker)
    requires Inv(s) && IsWaiting(s.workers, w)
    ensures var item, found := s.workers[w].item, s.workers[w].found;
            if Skips(s, item, found) then Withdrawn(s, item.runId) else NeverTouched(s, item.runId)
  {
    hide LocksMatch, Fifo, LogRight, JobOk, Withdrawn, NeverTouched, Skips;
    assert Busy(s.workers, w) && IdAt(s.workers, w) == s.workers[w].item.runId;
    assert Known(s.store.jobs, s.workers[w].item) && s.workers[w].item.runId in s.places;
    hide ItemsKnown, PlacesRight;
    SkipMeansWithdrawn(s, w, s.workers[w].item, s.workers[w].found);
  }

  lemma PassEvolves(s: State, mid: State, w: Worker, item: Invocation, found: bool)
    requires w < |s.workers| && mid == s.(queue := mid.queue, locks := mid.locks)
    requires if Skips(s, item, found) then Withdrawn(s, item.runId) else NeverTouched(s, item.runId)
    ensures StoreEvolves(s.store, Pass(mid, w, item, found).store)
    ensures Pass(mid, w, item, found).withdrawn == s.withdrawn
  {
  }

  lemma DequeueEvolves(s: State, w: Worker)
    requires Inv(s) && Enabled(s, Dequeue(w))
    ensures StoreEvolves(s.store, Next(s, Dequeue(w)).store) && s.withdrawn <= Next(s, Dequeue(w)).withdrawn
  {
    hide Inv;
    DequeuedIsUntouched(s, w);
    PassEvolves(s, s.(queue := s.queue[1..]), w, s.queue[0], s.queue[0].runId in s.store.stored);
  }

  lemma GrantEvolves(s: State, w: Worker)
    requires Inv(s) && Enabled(s, Grant(w))
    ensures StoreEvolves(s.store, Next(s, Grant(w)).store) && s.withdrawn <= Next(s, Grant(w)).withdrawn
  {
    hide Inv;
    GrantedIsUntouched(s, w);
    var k := s.workers[w].item.lockKey;
    var mid := s.(locks := s.locks[k := LockOf(s.locks, k).(waiters := LockOf(s.locks, k).waiters[1..])]);
    PassEvolves(s, mid, w, s.workers[w].item, s.workers[w].found);
  }

  /** The run a worker executes is running. */
  lemma ExecutingIsRunning(s: State, w: Worker)
    requires Inv(s) && IsExecuting(s.workers, w)
    ensures s.workers[w].item.runId in s.store.jobs
    ensures s.store.jobs[s.workers[w].item.runId].status == Running
    ensures s.workers[w].item.runId in s.store.stored
    ensures s.store.jobs[s.workers[w].item.runId].inv == s.workers[w].item
  {
    hide JobOk, LocksMatch, Fifo, LogRight;
    var id := s.workers[w].item.runId;
    assert Busy(s.workers, w) && IdAt(s.workers, w) == id;
    assert Known(s.store.jobs, s.workers[w].item);
    assert StatusFits(s, id);
  }

  lemma SettleEvolves(s: Store, id: RunId, outcome: Outcome, now: Time)
    requires id in s.jobs && s.jobs[id].status == Running
    ensures StoreEvolves(s, Put(s, id, SettleJob(s.jobs[id], outcome, now)))
  {
  }

  lemma FinishEvolves(s: State, w: Worker, outcome: Outcome, now: Time)
    requires Inv(s) && Enabled(s, Finish(w, outcome, now))
    ensures StoreEvolves(s.store, Next(s, Finish(w, outcome, now)).store)
  {
    hide Inv, StoreEvolves, CleanedIds;
    ExecutingIsRunning(s, w);
    var item := s.workers[w].item;
    var settled := Put(s.store, item.runId, SettleJob(s.store.jobs[item.runId], outcome, now));
    SettleEvolves(s.store, item.runId, outcome, now);
    CleanEvolves(settled, now);
    StoreEvolvesTransitive(s.store, settled, Clean(settled, now));
  }

  /** Over any run, terminal records, resolved futures and emitted words never change. */
  lemma {:induction false} ExecEvolves(s: State, acts: seq<Action>)
    requires Inv(s) && Legal(s, acts)
    ensures StoreEvolves(s.store, Exec(s, acts).store) && s.withdrawn <= Exec(s, acts).withdrawn
    decreases |acts|
  {
    if acts != [] {
      NextEvolves(s, acts[0]);
      NextKeepsInv(s, acts[0]);
      hide Inv;
      ExecEvolves(Next(s, acts[0]), acts[1..]);
      StoreEvolvesTransitive(s.store, Next(s, acts[0]).store, Exec(s, acts).store);
    }
  }

  /** A terminal run keeps its status, result, error and finish time whatever happens next. */
  lemma TerminalIsAbsorbing(s: State, acts: seq<Action>, id: RunId)
    requires Reachable(s) && Legal(s, acts) && id in s.store.jobs && !s.store.jobs[id].status.Active()
    ensures var t := Exec(s, acts);
            && id in t.store.jobs
            && t.store.jobs[id].status == s.store.jobs[id].status
            && t.store.jobs[id].result == s.store.jobs[id].result
            && t.store.jobs[id].fault == s.store.jobs[id].fault
            && t.store.jobs[id].finishedAt == s.store.jobs[id].finishedAt
            && t.store.jobs[id].future == s.store.jobs[id].future
            && t.store.jobs[id].word == s.store.jobs[id].word
  {
    ReachableInv(s);
    RunIsOk(s, id);
    ResultAgreesEitherWay(s.store.jobs[id]);
    hide Inv;
    ExecEvolves(s, acts);
  }

  /** A run cancelled while pending never has its handler invoked, whatever cleanup and the workers do later. */
  lemma CancelledWhilePendingNeverRuns(s: State, id: RunId, now: Time, acts: seq<Action>)
    requires Reachable(s) && id in s.store.stored && id in s.store.jobs && s.store.jobs[id].status == Pending
    requires Legal(Next(s, Cancel(id, now)), acts)
    ensures var t := Exec(Next(s, Cancel(id, now)), acts);
            && id !in Starts(t.admitted)
            && id in t.store.jobs && t.store.jobs[id].word == [CancelledLabel]
            && t.store.jobs[id].status == Cancelled
  {
    hide Inv, Reachable, StoreEvolves, Starts;
    var mid := Next(s, Cancel(id, now));
    var t := Exec(mid, acts);
    ReachableInv(s);
    NextKeepsInv(s, Cancel(id, now));
    ExecEvolves(mid, acts);
    ExecKeepsInv(mid, acts);
    WithdrawnNeverStarts(t, id);
  }

  lemma WithdrawnNeverStarts(s: State, id: RunId)
    requires Inv(s) && id in s.withdrawn
    ensures id !in Starts(s.admitted)
    ensures id in s.store.jobs && s.store.jobs[id].word == [CancelledLabel] && s.store.jobs[id].status == Cancelled
  {
    hide ItemsKnown, AwaitsKnown, PlacesRight, LocksMatch, Fifo;
    WithdrawnIsCancelled(s.store.jobs[id]);
    StartsComeFromLog(s.admitted);
    forall i | 0 <= i < |s.admitted| && s.admitted[i].item.runId == id ensures !s.admitted[i].ran {
      assert EntryRight(s, s.admitted[i]);
    }
  }

  // ---------------------------------------------------------------- records

  /** The state events a run has emitted are a word of the state-event language and determine its status. */
  lemma EventsDetermineStatus(s: State, id: RunId)
    requires Reachable(s) && id in s.store.jobs
    ensures Grammatical(s.store.jobs[id].word)
    ensures Meaning(s.store.jobs[id].word) == Some(s.store.jobs[id].status)
  {
    ReachableInv(s);
    EmittedWordsAreGrammatical(s.store.jobs[id].word);
  }

  lemma RunIsOk(s: State, id: RunId)
    requires Inv(s) && id in s.store.jobs
    ensures JobOk(s.store.jobs[id])
  {
    hide JobOk, ItemsKnown, AwaitsKnown, PlacesRight, StatusesFit, LogRight, LocksMatch, Fifo;
  }

  /**
   * Reading a result through the future or through the stored state gives the same answer, for every run whose
   * future nobody cancelled; finish time, future and status agree in every reachable state.
   */
  lemma ResultAgreement(s: State, id: RunId)
    requires Reachable(s) && id in s.store.jobs
    ensures s.store.jobs[id].finishedAt.Some? <==> !s.store.jobs[id].status.Active()
    ensures s.store.jobs[id].future != Abandoned ==>
              (s.store.jobs[id].future != Unresolved <==> !s.store.jobs[id].status.Active())
    ensures s.store.jobs[id].future !in {Unresolved, Abandoned} ==>
              ByFuture(s.store.jobs[id]) == ByState(s.store.jobs[id])
    ensures s.store.jobs[id].status == Succeeded ==> ByState(s.store.jobs[id]) == Returned(s.store.jobs[id].result)
    ensures s.store.jobs[id].status in {Failed, Cancelled, TimedOut} ==>
              s.store.jobs[id].fault.Some? && ByState(s.store.jobs[id]) == Raised(s.store.jobs[id].fault.value)
  {
    hide Inv, JobOk;
    ReachableInv(s);
    RunIsOk(s, id);
    ResultAgreesEitherWay(s.store.jobs[id]);
  }

  /**
   * In every reachable state: TIMEOUT means TimeoutError, CANCELLED means CancelledError or ConsoleExit, FAILED means
   * any other exception, and the last state event is the matching one.
   */
  lemma ExceptionTellsStatus(s: State, id: RunId)
    requires Reachable(s) && id in s.store.jobs
    ensures
      var job := s.store.jobs[id];
      && (job.status == TimedOut <==> job.fault == Some(TimeoutError))
      && (job.status == Cancelled <==>
            job.fault.Some? && (job.fault.value == CancelledError || job.fault.value.ConsoleExit?))
      && (job.status == Failed <==> job.fault.Some? && job.fault.value.OtherException?)
      && (job.status in {Pending, Running, Succeeded} <==> job.fault == None)
      && (job.status == Pending <==> job.word == [])
      && (job.word != [] ==>
            var last := job.word[|job.word| - 1];
            && (job.status == Running <==> last in {Start, CancelRequested})
            && (job.status == Succeeded <==> last == Success) && (job.status == Failed <==> last == Failure)
            && (job.status == TimedOut <==> last == Timeout) && (job.status == Cancelled <==> last == CancelledLabel))
  {
    hide Inv, JobOk;
    ReachableInv(s);
    RunIsOk(s, id);
    FaultAndLastEventTellStatus(s.store.jobs[id]);
  }

  /** Cleanup's sort never meets a run without a finish time. */
  lemma CleanupSeesFinishTimes(s: State)
    requires Reachable(s)
    ensures Retention.Stamped(Snapshot(s.store))
  {
    ReachableInv(s);
    hide ItemsKnown, AwaitsKnown, PlacesRight, StatusesFit, LogRight, LocksMatch, Fifo;
    SnapshotStamped(s.store);
  }
}
