/**
 * The executor as a step system. One action is one stretch of the event loop between two suspension points:
 * any number of workers share a FIFO queue and fair per-key locks, while cancel, pop, cleanup, nested submits
 * and cancelled waiters interleave with them.
 */
module Kernel {
  import opened Basics
  import opened Jobs
  import Retention

  type Worker = nat

  /** What a worker task is doing; `found` says whether the run was still stored when it was dequeued. */
  datatype Phase =
    | Idle
    | Waiting(item: Invocation, found: bool)
    | Executing(item: Invocation, awaiting: set<RunId>)

  datatype Lock = Lock(holder: Option<Worker>, waiters: seq<Worker>)

  /** One entry of the admission log: an item let through its lock, and whether its handler was invoked. */
  datatype Admission = Admission(item: Invocation, ran: bool)

  /**
   * `submitted`, `admitted`, `withdrawn` and `places` are histories: the submissions in order, the admissions in
   * order, the runs cancelled while pending, and where each run's work item is.
   */
  datatype State = State(
    store: Store, queue: seq<Invocation>, workers: seq<Phase>, locks: map<LockKey, Lock>,
    submitted: seq<Invocation>, admitted: seq<Admission>, withdrawn: set<RunId>, places: map<RunId, Place>)

  datatype Place = Queued | AtWorker(w: Worker) | Gone

  function Init(limits: Retention.Limits, n: nat): State {
    State(EmptyStore(limits), [], seq(n, _ => Idle), map[], [], [], {}, map[])
  }

  function LockOf(locks: map<LockKey, Lock>, k: LockKey): Lock {
    if k in locks then locks[k] else Lock(None, [])
  }

  /** Acquiring must wait while the lock is held or anybody is already waiting; no key means no lock. */
  predicate Blocked(s: State, k: LockKey) {
    k != "" && (LockOf(s.locks, k).holder.Some? || LockOf(s.locks, k).waiters != [])
  }

  /** _execute_work_item returns at once for a run that is gone or cancelled. */
  predicate Skips(s: State, item: Invocation, found: bool) {
    !found || (item.runId in s.store.jobs && s.store.jobs[item.runId].status == Cancelled)
  }

  // ---------------------------------------------------------------- actions

  datatype Action =
    | Submit(inv: Invocation)
    | Dequeue(w: Worker)
    | Grant(w: Worker)
    | Finish(w: Worker, outcome: Outcome, now: Time)
    | Await(w: Worker, child: RunId)
    | Resume(w: Worker, child: RunId)
    | Cancel(id: RunId, now: Time)
    | AbandonFuture(id: RunId)
    | PopRun(id: RunId)
    | Cleanup(now: Time)

  predicate IsExecuting(ws: seq<Phase>, w: Worker) {
    w < |ws| && ws[w].Executing?
  }

  predicate Enabled(s: State, a: Action) {
    match a
    case Submit(inv) => inv.runId !in s.store.jobs
    case Dequeue(w) => w < |s.workers| && s.workers[w].Idle? && s.queue != []
    case Grant(w) =>
      && w < |s.workers| && s.workers[w].Waiting?
      && var lock := LockOf(s.locks, s.workers[w].item.lockKey);
      lock.holder.None? && lock.waiters != [] && lock.waiters[0] == w
    case Finish(w, outcome, _) =>
      && IsExecuting(s.workers, w) && s.workers[w].item.runId in s.store.jobs
      && (s.workers[w].awaiting == {}
          || (s.workers[w].item.timeoutMs.Some? && outcome == Raised(TimeoutError)))
    case Await(w, child) =>
      IsExecuting(s.workers, w) && child in s.store.stored && child in s.store.jobs
    case Resume(w, child) =>
      && IsExecuting(s.workers, w) && child in s.workers[w].awaiting && child in s.store.jobs
      && s.store.jobs[child].future != Unresolved
    case Cancel(_, _) => true
    case AbandonFuture(id) => id in s.store.jobs
    case PopRun(id) => id in s.store.jobs ==> !s.store.jobs[id].status.Active()
    case Cleanup(_) => true
  }

  /** Worker w has the lock (or needs none): the item is skipped, or its handler is started. */
  function Pass(s: State, w: Worker, item: Invocation, found: bool): State
    requires w < |s.workers|
  {
    var skip := Skips(s, item, found) || item.runId !in s.store.jobs;
    var logged := s.(admitted := s.admitted + [Admission(item, !skip)]);
    if skip then
      logged.(workers := s.workers[w := Idle], places := s.places[item.runId := Gone])
    else
      logged.(workers := s.workers[w := Executing(item, {})],
              places := s.places[item.runId := AtWorker(w)],
              store := Put(s.store, item.runId, StartJob(s.store.jobs[item.runId])),
              locks := if item.lockKey == "" then s.locks
                       else s.locks[item.lockKey := LockOf(s.locks, item.lockKey).(holder := Some(w))])
  }

  ghost function Next(s: State, a: Action): State
    requires Enabled(s, a)
  {
    match a
    case Submit(inv) =>
      s.(store := Create(s.store, inv), queue := s.queue + [inv], submitted := s.submitted + [inv],
         places := s.places[inv.runId := Queued])
    case Dequeue(w) =>
      var item := s.queue[0];
      var found := item.runId in s.store.stored;
      var rest := s.(queue := s.queue[1..]);
      if Blocked(s, item.lockKey) then
        var lock := LockOf(s.locks, item.lockKey);
        rest.(workers := s.workers[w := Waiting(item, found)],
              places := s.places[item.runId := AtWorker(w)],
              locks := s.locks[item.lockKey := lock.(waiters := lock.waiters + [w])])
      else
        Pass(rest, w, item, found)
    case Grant(w) =>
      var item := s.workers[w].item;
      var lock := LockOf(s.locks, item.lockKey);
      Pass(s.(locks := s.locks[item.lockKey := lock.(waiters := lock.waiters[1..])]), w, item, s.workers[w].found)
    case Finish(w, outcome, now) =>
      var item := s.workers[w].item;
      var settled := Put(s.store, item.runId, SettleJob(s.store.jobs[item.runId], outcome, now));
      s.(store := Clean(settled, now),
         workers := s.workers[w := Idle],
         places := s.places[item.runId := Gone],
         locks := if item.lockKey == "" then s.locks
                  else s.locks[item.lockKey := LockOf(s.locks, item.lockKey).(holder := None)])
    case Await(w, child) =>
      s.(workers := s.workers[w := s.workers[w].(awaiting := s.workers[w].awaiting + {child})])
    case Resume(w, child) =>
      s.(workers := s.workers[w := s.workers[w].(awaiting := s.workers[w].awaiting - {child})])
    case Cancel(id, now) =>
      s.(store := CancelIn(s.store, id, now),
         withdrawn := if id in s.store.stored && id in s.store.jobs && s.store.jobs[id].status == Pending
                      then s.withdrawn + {id} else s.withdrawn)
    case AbandonFuture(id) => s.(store := Put(s.store, id, AbandonJob(s.store.jobs[id])))
    case PopRun(id) => s.(store := Pop(s.store, id))
    case Cleanup(now) => s.(store := Clean(s.store, now))
  }

  // ---------------------------------------------------------------- executions

  ghost predicate Legal(s: State, acts: seq<Action>)
    decreases |acts|
  {
    acts == [] || (Enabled(s, acts[0]) && Legal(Next(s, acts[0]), acts[1..]))
  }

  ghost function Exec(s: State, acts: seq<Action>): State
    requires Legal(s, acts)
    decreases |acts|
  {
    if acts == [] then s else Exec(Next(s, acts[0]), acts[1..])
  }

  ghost predicate ReachableBy(limits: Retention.Limits, n: nat, acts: seq<Action>, s: State) {
    Legal(Init(limits, n), acts) && s == Exec(Init(limits, n), acts)
  }

  ghost predicate Reachable(s: State) {
    exists limits, n, acts :: ReachableBy(limits, n, acts, s)
  }
}
