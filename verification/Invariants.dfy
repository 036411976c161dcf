/** What every reachable kernel state satisfies. */
module Invariants {
  import opened Basics
  import opened Jobs
  import opened Kernel
  import Retention

  predicate Busy(ws: seq<Phase>, w: Worker) {
    w < |ws| && !ws[w].Idle?
  }

  predicate IsWaiting(ws: seq<Phase>, w: Worker) {
    w < |ws| && ws[w].Waiting?
  }

  function IdAt(ws: seq<Phase>, w: Worker): RunId
    requires Busy(ws, w)
  {
    ws[w].item.runId
  }

  ghost predicate InQueue(queue: seq<Invocation>, id: RunId) {
    exists i :: 0 <= i < |queue| && queue[i].runId == id
  }

  predicate Started(job: Job) {
    job.word != [] && job.word[0] == Start
  }

  predicate Known(jobs: map<RunId, Job>, item: Invocation) {
    item.runId in jobs && jobs[item.runId].inv == item
  }

  /** Every item in the queue, at a worker or in a history is the invocation of a run object. */
  ghost predicate ItemsKnown(
    jobs: map<RunId, Job>, queue: seq<Invocation>, ws: seq<Phase>, submitted: seq<Invocation>)
  {
    && (forall i :: 0 <= i < |queue| ==> Known(jobs, queue[i]))
    && (forall w: Worker :: Busy(ws, w) ==> Known(jobs, ws[w].item))
    && (forall i :: 0 <= i < |submitted| ==> Known(jobs, submitted[i]))
    && (forall i, j :: 0 <= i < j < |submitted| ==> submitted[i].runId != submitted[j].runId)
  }

  /** Handlers await known runs. */
  ghost predicate AwaitsKnown(jobs: map<RunId, Job>, ws: seq<Phase>) {
    forall w: Worker, c :: IsExecuting(ws, w) && c in ws[w].awaiting ==> c in jobs
  }

  /** `places` is right: an item is in the queue once, or at one worker, or gone. */
  ghost predicate PlacesRight(places: map<RunId, Place>, queue: seq<Invocation>, ws: seq<Phase>) {
    && (forall i :: 0 <= i < |queue| ==> queue[i].runId in places && places[queue[i].runId] == Queued)
    && (forall i, j :: 0 <= i < j < |queue| ==> queue[i].runId != queue[j].runId)
    && (forall w: Worker :: Busy(ws, w) ==> IdAt(ws, w) in places && places[IdAt(ws, w)] == AtWorker(w))
    && (forall id :: id in places && places[id] == Queued ==> InQueue(queue, id))
    && (forall id :: id in places && places[id].AtWorker? ==>
          Busy(ws, places[id].w) && IdAt(ws, places[id].w) == id)
  }

  /** A run that has not been started: still pending, or cancelled while it was. */
  predicate Unstarted(jobs: map<RunId, Job>, withdrawn: set<RunId>, id: RunId) {
    id in jobs && (jobs[id].status == Pending || id in withdrawn)
  }

  /** The place of a run's item decides its status. */
  predicate StatusFits(s: State, id: RunId) {
    && id in s.store.jobs && id in s.places
    && match s.places[id]
       case Queued => Unstarted(s.store.jobs, s.withdrawn, id)
       case AtWorker(w) =>
         if IsWaiting(s.workers, w)
         then Unstarted(s.store.jobs, s.withdrawn, id) && (!s.workers[w].found ==> id in s.withdrawn)
         else s.store.jobs[id].status == Running
       case Gone => !s.store.jobs[id].status.Active()
  }

  ghost predicate StatusesFit(s: State) {
    && s.places.Keys == s.store.jobs.Keys
    && (forall id :: id in s.places ==> StatusFits(s, id))
    && (forall id :: id in s.withdrawn ==> id in s.store.jobs && s.store.jobs[id].word == [CancelledLabel])
  }

  /** Each run passes at most once, and the log tells exactly whether its handler was started. */
  ghost predicate LogRight(s: State) {
    && (forall i, j :: 0 <= i < j < |s.admitted| ==> s.admitted[i].item.runId != s.admitted[j].item.runId)
    && (forall i :: 0 <= i < |s.admitted| ==> EntryRight(s, s.admitted[i]))
  }

  predicate EntryRight(s: State, e: Admission) {
    && Known(s.store.jobs, e.item)
    && (e.ran <==> Started(s.store.jobs[e.item.runId]))
    && e.item.runId in s.places && s.places[e.item.runId] != Queued
    && (s.places[e.item.runId].AtWorker? ==> IsExecuting(s.workers, s.places[e.item.runId].w))
  }

  /** Each lock's record says exactly which workers hold it and wait for it. */
  ghost predicate LocksMatch(ws: seq<Phase>, locks: map<LockKey, Lock>) {
    && (forall k: LockKey :: LockMatches(ws, LockOf(locks, k), k))
    && (forall w: Worker :: IsWaiting(ws, w) ==> ws[w].item.lockKey != "")
  }

  ghost predicate LockMatches(ws: seq<Phase>, lock: Lock, k: LockKey) {
    && (forall w: Worker :: lock.holder == Some(w) <==> k != "" && IsExecuting(ws, w) && ws[w].item.lockKey == k)
    && (forall w: Worker :: w in lock.waiters <==> k != "" && IsWaiting(ws, w) && ws[w].item.lockKey == k)
    && NoDups(lock.waiters)
  }

  // ---------------------------------------------------------------- per-key order

  function OfKey(items: seq<Invocation>, k: LockKey): seq<Invocation> {
    if items == [] then []
    else (if items[0].lockKey == k then [items[0]] else []) + OfKey(items[1..], k)
  }

  lemma {:induction false} OfKeyAppend(a: seq<Invocation>, b: seq<Invocation>, k: LockKey)
    ensures OfKey(a + b, k) == OfKey(a, k) + OfKey(b, k)
  {
    if a == [] {
      assert a + b == b;
    } else {
      assert (a + b)[1..] == a[1..] + b;
      OfKeyAppend(a[1..], b, k);
    }
  }

  function Admitted(log: seq<Admission>): seq<Invocation> {
    seq(|log|, i requires 0 <= i < |log| => log[i].item)
  }

  lemma AdmittedAppend(log: seq<Admission>, e: Admission)
    ensures Admitted(log + [e]) == Admitted(log) + [e.item]
  {
  }

  ghost predicate AllBusy(ws: seq<Phase>, waiters: seq<Worker>) {
    forall i :: 0 <= i < |waiters| ==> Busy(ws, waiters[i])
  }

  /** The items of the workers waiting for a key, in the lock's order. */
  ghost function ItemsOf(ws: seq<Phase>, waiters: seq<Worker>): seq<Invocation>
    requires AllBusy(ws, waiters)
  {
    seq(|waiters|, i requires 0 <= i < |waiters| && Busy(ws, waiters[i]) => ws[waiters[i]].item)
  }

  /** Admitted, then waiting, then queued items of a key are its submissions, in order. */
  ghost predicate FifoAt(
    admitted: seq<Admission>, ws: seq<Phase>, waiters: seq<Worker>,
    queue: seq<Invocation>, submitted: seq<Invocation>, k: LockKey)
  {
    && AllBusy(ws, waiters)
    && OfKey(Admitted(admitted), k) + ItemsOf(ws, waiters) + OfKey(queue, k) == OfKey(submitted, k)
  }

  ghost predicate Fifo(
    admitted: seq<Admission>, ws: seq<Phase>, locks: map<LockKey, Lock>,
    queue: seq<Invocation>, submitted: seq<Invocation>)
  {
    forall k: LockKey :: k != "" ==> FifoAt(admitted, ws, LockOf(locks, k).waiters, queue, submitted, k)
  }

  ghost predicate Inv(s: State) {
    && StoreOk(s.store)
    && ItemsKnown(s.store.jobs, s.queue, s.workers, s.submitted)
    && AwaitsKnown(s.store.jobs, s.workers)
    && PlacesRight(s.places, s.queue, s.workers)
    && StatusesFit(s)
    && LogRight(s)
    && LocksMatch(s.workers, s.locks)
    && Fifo(s.admitted, s.workers, s.locks, s.queue, s.submitted)
  }

  lemma InitInv(limits: Retention.Limits, n: nat)
    ensures Inv(Init(limits, n))
  {
  }

  // ---------------------------------------------------------------- framing

  /** Runs keep their invocations. */
  ghost predicate SameInvs(jobs: map<RunId, Job>, jobs': map<RunId, Job>) {
    forall id :: id in jobs ==> id in jobs' && jobs'[id].inv == jobs[id].inv
  }

  lemma ItemsKnownFrame(
    jobs: map<RunId, Job>, jobs': map<RunId, Job>,
    queue: seq<Invocation>, ws: seq<Phase>, submitted: seq<Invocation>)
    requires ItemsKnown(jobs, queue, ws, submitted) && AwaitsKnown(jobs, ws) && SameInvs(jobs, jobs')
    ensures ItemsKnown(jobs', queue, ws, submitted) && AwaitsKnown(jobs', ws)
  {
  }

  /** Runs keep their statuses; their words may only grow by labels that are neither the first nor the last. */
  ghost predicate SameStatuses(jobs: map<RunId, Job>, jobs': map<RunId, Job>) {
    && jobs'.Keys == jobs.Keys
    && forall id :: id in jobs ==>
         && jobs'[id].status == jobs[id].status
         && Started(jobs'[id]) == Started(jobs[id])
         && (jobs[id].word == [CancelledLabel] ==> jobs'[id].word == jobs[id].word)
  }

  lemma StatusesFrame(s: State, t: State)
    requires StatusesFit(s) && t == s.(store := t.store) && SameStatuses(s.store.jobs, t.store.jobs)
    ensures StatusesFit(t)
  {
    forall id | id in t.places ensures StatusFits(t, id) { assert StatusFits(s, id); }
  }

  lemma LogFrame(s: State, t: State)
    requires LogRight(s) && t == s.(store := t.store)
    requires SameInvs(s.store.jobs, t.store.jobs) && SameStatuses(s.store.jobs, t.store.jobs)
    ensures LogRight(t)
  {
    forall i | 0 <= i < |t.admitted| ensures EntryRight(t, t.admitted[i]) { assert EntryRight(s, s.admitted[i]); }
  }

  // ---------------------------------------------------------------- actions on the store alone

  lemma OnlyStoreKeepsInv(s: State, t: State)
    requires Inv(s) && t == s.(store := t.store) && StoreOk(t.store)
    requires SameInvs(s.store.jobs, t.store.jobs) && SameStatuses(s.store.jobs, t.store.jobs)
    ensures Inv(t)
  {
    hide StoreOk, LocksMatch, Fifo, PlacesRight, ItemsKnown, AwaitsKnown, StatusesFit, LogRight,
         SameInvs, SameStatuses;
    ItemsKnownFrame(s.store.jobs, t.store.jobs, s.queue, s.workers, s.submitted);
    StatusesFrame(s, t);
    LogFrame(s, t);
  }

  lemma CleanupKeepsInv(s: State, now: Time)
    requires Inv(s)
    ensures Inv(Next(s, Cleanup(now)))
  {
    hide LocksMatch, Fifo, PlacesRight, ItemsKnown, AwaitsKnown, StatusesFit, LogRight, StoreOk;
    CleanKeepsActive(s.store, now);
    OnlyStoreKeepsInv(s, Next(s, Cleanup(now)));
  }

  lemma AbandonKeepsInv(s: State, id: RunId)
    requires Inv(s) && id in s.store.jobs
    ensures Inv(Next(s, AbandonFuture(id)))
  {
    hide LocksMatch, Fifo, PlacesRight, ItemsKnown, AwaitsKnown, StatusesFit, LogRight, StoreOk;
    AbandonOk(s.store, id);
    OnlyStoreKeepsInv(s, Next(s, AbandonFuture(id)));
  }

  lemma PopKeepsInv(s: State, id: RunId)
    requires Inv(s) && Enabled(s, PopRun(id))
    ensures Inv(Next(s, PopRun(id)))
  {
    hide LocksMatch, Fifo, PlacesRight, ItemsKnown, AwaitsKnown, StatusesFit, LogRight, StoreOk;
    PopOk(s.store, id);
    OnlyStoreKeepsInv(s, Next(s, PopRun(id)));
  }
}
