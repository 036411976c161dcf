/** Every action keeps the kernel invariant. */
module Actions {
  import opened Basics
  import opened Jobs
  import opened Kernel
  import opened Invariants
  import opened Preservation

  // ---------------------------------------------------------------- one run moves

  /** Between s and t only run `id` moves: every other run keeps its record, its place and its worker. */
  ghost predicate OnlyMoves(s: State, t: State, id: RunId) {
    && t.places.Keys == s.places.Keys + {id} && t.store.jobs.Keys == s.store.jobs.Keys + {id}
    && (forall i :: i in s.places && i != id ==> t.places[i] == s.places[i])
    && (forall i :: i in s.store.jobs && i != id ==> t.store.jobs[i] == s.store.jobs[i])
    && s.withdrawn <= t.withdrawn <= s.withdrawn + {id}
    && (forall i :: i in s.places && i != id && s.places[i].AtWorker? ==>
          && s.places[i].w < |s.workers| && s.places[i].w < |t.workers|
          && t.workers[s.places[i].w] == s.workers[s.places[i].w])
  }

  /** Worker w changes its phase; the runs at the other workers do not notice. */
  lemma OthersKeepWorkers(s: State, t: State, id: RunId, w: Worker)
    requires PlacesRight(s.places, s.queue, s.workers) && w < |s.workers| == |t.workers|
    requires t.workers == s.workers[w := t.workers[w]]
    requires Busy(s.workers, w) ==> IdAt(s.workers, w) == id
    ensures forall i :: i in s.places && i != id && s.places[i].AtWorker? ==>
              && s.places[i].w < |s.workers| && s.places[i].w < |t.workers|
              && t.workers[s.places[i].w] == s.workers[s.places[i].w]
  {
  }

  lemma StatusAt(s: State, id: RunId)
    requires StatusesFit(s) && (id in s.store.jobs || id in s.places)
    ensures StatusFits(s, id) && (id in s.withdrawn ==> s.store.jobs[id].word == [CancelledLabel])
  {
  }

  lemma EntriesRight(s: State)
    requires LogRight(s)
    ensures forall i :: 0 <= i < |s.admitted| ==> EntryRight(s, s.admitted[i])
  {
  }

  lemma StatusesStep(s: State, t: State, id: RunId)
    requires StatusesFit(s) && OnlyMoves(s, t, id) && StatusFits(t, id)
    requires id in t.withdrawn ==> t.store.jobs[id].word == [CancelledLabel]
    ensures StatusesFit(t)
  {
    forall i | i in t.places ensures StatusFits(t, i) {
      if i != id { assert StatusFits(s, i); }
    }
  }

  lemma LogStep(s: State, t: State, id: RunId)
    requires LogRight(s) && OnlyMoves(s, t, id) && t.admitted == s.admitted
    requires forall i :: 0 <= i < |s.admitted| && s.admitted[i].item.runId == id ==> EntryRight(t, s.admitted[i])
    ensures LogRight(t)
  {
    forall i | 0 <= i < |t.admitted| ensures EntryRight(t, t.admitted[i]) {
      assert EntryRight(s, s.admitted[i]);
    }
  }

  lemma LogExtend(s: State, t: State, e: Admission)
    requires LogRight(s) && OnlyMoves(s, t, e.item.runId) && t.admitted == s.admitted + [e] && EntryRight(t, e)
    requires e.item.runId in s.places
    requires s.places[e.item.runId] == Queued
             || (s.places[e.item.runId].AtWorker? && IsWaiting(s.workers, s.places[e.item.runId].w))
    ensures LogRight(t)
  {
    forall i | 0 <= i < |s.admitted|
      ensures EntryRight(t, s.admitted[i]) && s.admitted[i].item.runId != e.item.runId
    {
      assert EntryRight(s, s.admitted[i]);
    }
  }

  // ---------------------------------------------------------------- submit, cancel

  lemma SubmitKeepsInv(s: State, inv: Invocation)
    requires Inv(s) && Enabled(s, Submit(inv))
    ensures Inv(Next(s, Submit(inv)))
  {
    var t := Next(s, Submit(inv));
    hide Fifo, LocksMatch, StoreOk, PlacesRight;
    CreateOk(s.store, inv);
    PlacesSubmit(s.places, s.queue, s.workers, inv);
    FifoSubmit(s.admitted, s.workers, s.locks, s.queue, s.submitted, inv);
    ItemsKnownFrame(s.store.jobs, t.store.jobs, s.queue, s.workers, s.submitted);
    SubmitItems(t.store.jobs, s.queue, s.workers, s.submitted, s.store.jobs, inv);
    SubmitStatuses(s, inv);
  }

  lemma SubmitItems(
    jobs: map<RunId, Job>, queue: seq<Invocation>, ws: seq<Phase>, submitted: seq<Invocation>,
    before: map<RunId, Job>, inv: Invocation)
    requires ItemsKnown(before, queue, ws, submitted) && ItemsKnown(jobs, queue, ws, submitted)
    requires inv.runId !in before && Known(jobs, inv)
    ensures ItemsKnown(jobs, queue + [inv], ws, submitted + [inv])
  {
    assert forall i :: 0 <= i < |submitted| ==> Known(before, submitted[i]);
  }

  lemma SubmitStatuses(s: State, inv: Invocation)
    requires StatusesFit(s) && LogRight(s) && PlacesRight(s.places, s.queue, s.workers) && inv.runId !in s.store.jobs
    ensures StatusesFit(Next(s, Submit(inv))) && LogRight(Next(s, Submit(inv)))
  {
    var t := Next(s, Submit(inv));
    assert OnlyMoves(s, t, inv.runId);
    StatusesStep(s, t, inv.runId);
    forall i | 0 <= i < |s.admitted| ensures s.admitted[i].item.runId != inv.runId {
      assert EntryRight(s, s.admitted[i]);
    }
    LogStep(s, t, inv.runId);
  }

  lemma CancelKeepsInv(s: State, id: RunId, now: Time)
    requires Inv(s)
    ensures Inv(Next(s, Cancel(id, now)))
  {
    var t := Next(s, Cancel(id, now));
    if id in s.store.stored {
      assert id in s.store.jobs && JobOk(s.store.jobs[id]);
      hide Fifo, LocksMatch, PlacesRight, StoreOk, JobOk, StatusesFit, LogRight;
      CancelInOk(s.store, id, now);
      ItemsKnownFrame(s.store.jobs, t.store.jobs, s.queue, s.workers, s.submitted);
      hide ItemsKnown, AwaitsKnown;
      CancelStatuses(s, id, now);
    } else {
      assert t == s;
    }
  }

  lemma CancelStatuses(s: State, id: RunId, now: Time)
    requires StatusesFit(s) && LogRight(s) && PlacesRight(s.places, s.queue, s.workers)
    requires id in s.store.stored && id in s.store.jobs && JobOk(s.store.jobs[id])
    ensures StatusesFit(Next(s, Cancel(id, now))) && LogRight(Next(s, Cancel(id, now)))
  {
    hide JobOk, PlacesRight, StatusesFit, LogRight;
    var t := Next(s, Cancel(id, now));
    var job := s.store.jobs[id];
    PendingWordIsEmpty(job);
    if job.status == Running { RunningWordStarts(job); }
    StatusAt(s, id);
    PlacesHaveWorkers(s);
    StatusesStep(s, t, id);
    EntriesRight(s);
    LogStep(s, t, id);
  }

  lemma PlacesHaveWorkers(s: State)
    requires PlacesRight(s.places, s.queue, s.workers)
    ensures forall id :: id in s.places && s.places[id].AtWorker? ==> s.places[id].w < |s.workers|
  {
  }

  lemma PendingWordIsEmpty(job: Job)
    requires JobOk(job)
    ensures job.status == Pending <==> job.word == []
  {
  }

  lemma RunningWordStarts(job: Job)
    requires JobOk(job) && job.status == Running
    ensures Started(job)
  {
    EmittedWordsAreGrammatical(job.word);
  }

  lemma WithdrawnIsCancelled(job: Job)
    requires JobOk(job) && job.word == [CancelledLabel]
    ensures job.status == Cancelled && !Started(job)
  {
    assert job.word == [] + [CancelledLabel];
    MeaningAppend([], CancelledLabel);
  }

  // ---------------------------------------------------------------- await, resume

  /** Worker w awaits a different set of children. */
  lemma AwaitingKeepsInv(s: State, w: Worker, awaiting: set<RunId>)
    requires Inv(s) && IsExecuting(s.workers, w)
    requires forall c :: c in awaiting ==>
               c in s.store.jobs
    ensures Inv(s.(workers := s.workers[w := s.workers[w].(awaiting := awaiting)]))
  {
    var ws' := s.workers[w := s.workers[w].(awaiting := awaiting)];
    hide StoreOk;
    AwaitingItems(s.store.jobs, s.queue, s.workers, s.submitted, w, awaiting);
    hide ItemsKnown, AwaitsKnown;
    PlacesKeep(s.places, s.queue, s.workers, w, s.workers[w].(awaiting := awaiting));
    hide PlacesRight;
    LocksKeep(s.workers, s.locks, w, awaiting);
    FifoWorker(s.admitted, s.workers, s.locks, s.queue, s.submitted, w, s.workers[w].(awaiting := awaiting));
    hide LocksMatch, Fifo;
    AwaitingStatuses(s, s.(workers := ws'), w);
  }

  lemma AwaitingItems(
    jobs: map<RunId, Job>, queue: seq<Invocation>, ws: seq<Phase>, submitted: seq<Invocation>,
    w: Worker, awaiting: set<RunId>)
    requires ItemsKnown(jobs, queue, ws, submitted) && AwaitsKnown(jobs, ws) && IsExecuting(ws, w)
    requires forall c :: c in awaiting ==> c in jobs
    ensures ItemsKnown(jobs, queue, ws[w := ws[w].(awaiting := awaiting)], submitted)
    ensures AwaitsKnown(jobs, ws[w := ws[w].(awaiting := awaiting)])
  {
    var ws' := ws[w := ws[w].(awaiting := awaiting)];
    forall v: Worker | Busy(ws', v) ensures Known(jobs, ws'[v].item) {
      assert Busy(ws, v);
    }
    forall v: Worker, c | IsExecuting(ws', v) && c in ws'[v].awaiting
      ensures c in jobs
    {
      assert IsExecuting(ws, v);
    }
  }

  lemma AwaitingStatuses(s: State, t: State, w: Worker)
    requires StatusesFit(s) && LogRight(s) && IsExecuting(s.workers, w) && IsExecuting(t.workers, w)
    requires t == s.(workers := t.workers) && t.workers == s.workers[w := t.workers[w]]
    ensures StatusesFit(t) && LogRight(t)
  {
    forall id | id in t.places ensures StatusFits(t, id) { assert StatusFits(s, id); }
    forall i | 0 <= i < |t.admitted| ensures EntryRight(t, t.admitted[i]) { assert EntryRight(s, s.admitted[i]); }
  }

  // ---------------------------------------------------------------- finish

  lemma FinishKeepsInv(s: State, w: Worker, outcome: Outcome, now: Time)
    requires Inv(s) && Enabled(s, Finish(w, outcome, now))
    ensures Inv(Next(s, Finish(w, outcome, now)))
  {
    hide Inv;
    var mid := Settled(s, w, outcome, now);
    SettledKeepsInv(s, w, outcome, now);
    CleanupKeepsInv(mid, now);
  }

  /** The state between settling the run and cleanup. */
  function Settled(s: State, w: Worker, outcome: Outcome, now: Time): State
    requires IsExecuting(s.workers, w) && s.workers[w].item.runId in s.store.jobs
  {
    var item := s.workers[w].item;
    s.(store := Put(s.store, item.runId, SettleJob(s.store.jobs[item.runId], outcome, now)),
       workers := s.workers[w := Idle],
       places := s.places[item.runId := Gone],
       locks := if item.lockKey == "" then s.locks
                else s.locks[item.lockKey := LockOf(s.locks, item.lockKey).(holder := None)])
  }

  lemma SettledRecords(s: State, w: Worker, outcome: Outcome, now: Time)
    requires Inv(s) && IsExecuting(s.workers, w) && s.workers[w].item.runId in s.store.jobs
    ensures StoreOk(Settled(s, w, outcome, now).store)
    ensures StatusesFit(Settled(s, w, outcome, now)) && LogRight(Settled(s, w, outcome, now))
  {
    hide LocksMatch, Fifo, StatusesFit, LogRight, ItemsKnown, AwaitsKnown, PlacesRight, JobOk, SettleJob;
    var id := s.workers[w].item.runId;
    SettledStatuses(s, w, outcome, now);
    SettleJobOk(s.store.jobs[id], outcome, now);
    SettledSameRun(s.store.jobs[id], outcome, now);
    PutOk(s.store, id, SettleJob(s.store.jobs[id], outcome, now));
  }

  lemma SettledSameRun(job: Job, outcome: Outcome, now: Time)
    ensures SettleJob(job, outcome, now).inv == job.inv && !SettleJob(job, outcome, now).status.Active()
  {
  }

  lemma SettledKeepsInv(s: State, w: Worker, outcome: Outcome, now: Time)
    requires Inv(s) && IsExecuting(s.workers, w) && s.workers[w].item.runId in s.store.jobs
    ensures Inv(Settled(s, w, outcome, now))
  {
    hide StoreOk, StatusesFit, LogRight, JobOk, LocksMatch, Fifo, ItemsKnown, AwaitsKnown, PlacesRight, SettleJob;
    var item := s.workers[w].item;
    var t := Settled(s, w, outcome, now);
    SettledRecords(s, w, outcome, now);
    SettledSameRun(s.store.jobs[item.runId], outcome, now);
    IdleItems(s.store.jobs, s.queue, s.workers, s.submitted, w);
    ItemsKnownFrame(s.store.jobs, t.store.jobs, s.queue, t.workers, s.submitted);
    PlacesRelease(s.places, s.queue, s.workers, w);
    LocksRelease(s.workers, s.locks, w);
    FifoWorker(s.admitted, s.workers, s.locks, s.queue, s.submitted, w, Idle);
    FifoHolder(s.admitted, t.workers, s.locks, s.queue, s.submitted, item.lockKey, None);
  }

  lemma IdleItems(
    jobs: map<RunId, Job>, queue: seq<Invocation>, ws: seq<Phase>, submitted: seq<Invocation>, w: Worker)
    requires ItemsKnown(jobs, queue, ws, submitted) && AwaitsKnown(jobs, ws) && w < |ws|
    ensures ItemsKnown(jobs, queue, ws[w := Idle], submitted) && AwaitsKnown(jobs, ws[w := Idle])
  {
    var ws' := ws[w := Idle];
    forall v: Worker | Busy(ws', v) ensures Known(jobs, ws'[v].item) { assert Busy(ws, v); }
    forall v: Worker, c | IsExecuting(ws', v) && c in ws'[v].awaiting
      ensures c in jobs
    {
      assert IsExecuting(ws, v);
    }
  }

  lemma PlaceOfWorker(s: State, w: Worker)
    requires PlacesRight(s.places, s.queue, s.workers) && Busy(s.workers, w)
    ensures s.workers[w].item.runId in s.places && s.places[s.workers[w].item.runId] == AtWorker(w)
  {
    assert IdAt(s.workers, w) == s.workers[w].item.runId;
  }

  lemma SettledStatuses(s: State, w: Worker, outcome: Outcome, now: Time)
    requires StatusesFit(s) && LogRight(s) && PlacesRight(s.places, s.queue, s.workers)
    requires IsExecuting(s.workers, w) && s.workers[w].item.runId in s.store.jobs
    requires JobOk(s.store.jobs[s.workers[w].item.runId])
    ensures s.store.jobs[s.workers[w].item.runId].status == Running
    ensures StatusesFit(Settled(s, w, outcome, now)) && LogRight(Settled(s, w, outcome, now))
  {
    hide JobOk, PlacesRight, StatusesFit, LogRight;
    var id := s.workers[w].item.runId;
    var t := Settled(s, w, outcome, now);
    PlaceOfWorker(s, w);
    StatusAt(s, id);
    RunningWordStarts(s.store.jobs[id]);
    OthersKeepWorkers(s, t, id, w);
    StatusesStep(s, t, id);
    EntriesRight(s);
    LogStep(s, t, id);
  }

  // ---------------------------------------------------------------- dequeue, grant

  lemma BlockKeepsInv(s: State, w: Worker)
    requires Inv(s) && Enabled(s, Dequeue(w)) && Blocked(s, s.queue[0].lockKey)
    ensures Inv(Next(s, Dequeue(w)))
  {
    var t := Next(s, Dequeue(w));
    var item, found := s.queue[0], s.queue[0].runId in s.store.stored;
    BlockStatuses(s, w);
    hide StoreOk, StatusesFit, LogRight;
    TakeItems(s.store.jobs, s.queue, s.workers, s.submitted, w, Waiting(item, found));
    hide ItemsKnown, AwaitsKnown;
    PlacesTake(s.places, s.queue, s.workers, w, Waiting(item, found));
    hide PlacesRight;
    LocksJoin(s.workers, s.locks, w, item, found);
    FifoWorker(s.admitted, s.workers, s.locks, s.queue, s.submitted, w, Waiting(item, found));
    FifoJoin(s.admitted, t.workers, s.locks, s.queue, s.submitted, w);
  }

  lemma TakeItems(
    jobs: map<RunId, Job>, queue: seq<Invocation>, ws: seq<Phase>, submitted: seq<Invocation>,
    w: Worker, phase: Phase)
    requires ItemsKnown(jobs, queue, ws, submitted) && AwaitsKnown(jobs, ws)
    requires w < |ws| && queue != []
    requires phase.Idle? || phase.item == queue[0]
    requires phase.Executing? ==> phase.awaiting == {}
    ensures ItemsKnown(jobs, queue[1..], ws[w := phase], submitted) && AwaitsKnown(jobs, ws[w := phase])
  {
    var ws' := ws[w := phase];
    forall v: Worker | Busy(ws', v) ensures Known(jobs, ws'[v].item) { if v != w { assert Busy(ws, v); } }
    forall v: Worker, c | IsExecuting(ws', v) && c in ws'[v].awaiting
      ensures c in jobs
    {
      assert v != w && IsExecuting(ws, v);
    }
  }

  /** An item that is not stored any more was withdrawn. */
  lemma NotFoundIsWithdrawn(s: State, id: RunId)
    requires StoreOk(s.store) && Unstarted(s.store.jobs, s.withdrawn, id) && id !in s.store.stored
    ensures id in s.withdrawn
  {
    hide JobOk;
  }

  lemma PlaceOfHead(s: State)
    requires PlacesRight(s.places, s.queue, s.workers) && s.queue != []
    ensures s.queue[0].runId in s.places && s.places[s.queue[0].runId] == Queued
  {
  }

  lemma BlockStatuses(s: State, w: Worker)
    requires StatusesFit(s) && LogRight(s) && PlacesRight(s.places, s.queue, s.workers) && StoreOk(s.store)
    requires Enabled(s, Dequeue(w)) && Blocked(s, s.queue[0].lockKey)
    ensures StatusesFit(Next(s, Dequeue(w))) && LogRight(Next(s, Dequeue(w)))
  {
    hide JobOk, StoreOk, PlacesRight, StatusesFit, LogRight;
    var id := s.queue[0].runId;
    var t := Next(s, Dequeue(w));
    PlaceOfHead(s);
    StatusAt(s, id);
    if id !in s.store.stored { NotFoundIsWithdrawn(s, id); }
    OthersKeepWorkers(s, t, id, w);
    StatusesStep(s, t, id);
    EntriesRight(s);
    LogStep(s, t, id);
  }

  // Passing the lock: `mid` is s with the item already taken off the queue, or off the head of its lock's line.

  lemma PassStatuses(s: State, mid: State, w: Worker, item: Invocation, found: bool)
    requires StatusesFit(s) && LogRight(s) && PlacesRight(s.places, s.queue, s.workers)
    requires mid == s.(queue := mid.queue, locks := mid.locks)
    requires w < |s.workers| && Known(s.store.jobs, item) && item.runId in s.places
    requires if s.workers[w].Idle? then s.places[item.runId] == Queued
             else s.workers[w] == Waiting(item, found) && s.places[item.runId] == AtWorker(w)
    requires Skips(s, item, found) ==> Withdrawn(s, item.runId)
    requires !Skips(s, item, found) ==> NeverTouched(s, item.runId)
    ensures StatusesFit(Pass(mid, w, item, found)) && LogRight(Pass(mid, w, item, found))
  {
    hide PlacesRight, StatusesFit, LogRight;
    var id := item.runId;
    var t := Pass(mid, w, item, found);
    OthersKeepWorkers(s, t, id, w);
    StatusesStep(s, t, id);
    LogExtend(s, t, Admission(item, !Skips(s, item, found)));
  }

  ghost predicate Withdrawn(s: State, id: RunId) {
    && id in s.withdrawn && id in s.store.jobs && s.store.jobs[id].status == Cancelled
    && s.store.jobs[id].word == [CancelledLabel]
  }

  ghost predicate NeverTouched(s: State, id: RunId) {
    id !in s.withdrawn && id in s.store.jobs && s.store.jobs[id].status == Pending && s.store.jobs[id].word == []
  }

  lemma SkipMeansWithdrawn(s: State, w: Worker, item: Invocation, found: bool)
    requires StatusesFit(s) && StoreOk(s.store) && Known(s.store.jobs, item) && w < |s.workers|
    requires item.runId in s.places
    requires if s.workers[w].Idle? then s.places[item.runId] == Queued && found == (item.runId in s.store.stored)
             else s.workers[w] == Waiting(item, found) && s.places[item.runId] == AtWorker(w)
    ensures if Skips(s, item, found) then Withdrawn(s, item.runId) else NeverTouched(s, item.runId)
  {
    var id := item.runId;
    assert StatusFits(s, id);
    assert Unstarted(s.store.jobs, s.withdrawn, id);
    PendingWordIsEmpty(s.store.jobs[id]);
    if id in s.withdrawn { WithdrawnIsCancelled(s.store.jobs[id]); }
    hide JobOk;
    if id !in s.store.stored { NotFoundIsWithdrawn(s, id); }
  }

  /** What an invariant says of the runs' records, and of where their items are. */
  ghost predicate RecordsRight(s: State) {
    && StoreOk(s.store)
    && ItemsKnown(s.store.jobs, s.queue, s.workers, s.submitted)
    && AwaitsKnown(s.store.jobs, s.workers)
    && StatusesFit(s)
    && LogRight(s)
  }

  ghost predicate ShapeRight(s: State) {
    && PlacesRight(s.places, s.queue, s.workers)
    && LocksMatch(s.workers, s.locks)
    && Fifo(s.admitted, s.workers, s.locks, s.queue, s.submitted)
  }

  lemma PassQueuedKeepsInv(s: State, w: Worker)
    requires Inv(s) && Enabled(s, Dequeue(w)) && !Blocked(s, s.queue[0].lockKey)
    ensures Inv(Next(s, Dequeue(w)))
  {
    assert Known(s.store.jobs, s.queue[0]);
    hide StoreOk, ItemsKnown, AwaitsKnown, PlacesRight, StatusesFit, LogRight, LocksMatch, Fifo, Next;
    PassQueuedRecords(s, w);
    PassQueuedShape(s, w);
  }

  lemma HeadIsKnown(s: State)
    requires ItemsKnown(s.store.jobs, s.queue, s.workers, s.submitted) && PlacesRight(s.places, s.queue, s.workers)
    requires s.queue != []
    ensures Known(s.store.jobs, s.queue[0]) && s.queue[0].runId in s.places && s.places[s.queue[0].runId] == Queued
  {
  }

  lemma BusyIsKnownItem(s: State, w: Worker)
    requires ItemsKnown(s.store.jobs, s.queue, s.workers, s.submitted) && Busy(s.workers, w)
    ensures Known(s.store.jobs, s.workers[w].item)
  {
  }

  lemma PassQueuedRecords(s: State, w: Worker)
    requires RecordsRight(s) && PlacesRight(s.places, s.queue, s.workers)
    requires Enabled(s, Dequeue(w)) && !Blocked(s, s.queue[0].lockKey)
    ensures RecordsRight(Next(s, Dequeue(w)))
  {
    hide PlacesRight, JobOk, StatusesFit, LogRight, StoreOk, ItemsKnown, AwaitsKnown;
    var item, found := s.queue[0], s.queue[0].runId in s.store.stored;
    var t := Next(s, Dequeue(w));
    HeadIsKnown(s);
    SkipMeansWithdrawn(s, w, item, found);
    PassStatuses(s, s.(queue := s.queue[1..]), w, item, found);
    PassStore(s, item, found);
    TakeItems(s.store.jobs, s.queue, s.workers, s.submitted, w, t.workers[w]);
    ItemsKnownFrame(s.store.jobs, t.store.jobs, t.queue, t.workers, s.submitted);
  }

  lemma PassQueuedShape(s: State, w: Worker)
    requires ShapeRight(s) && Enabled(s, Dequeue(w)) && !Blocked(s, s.queue[0].lockKey)
    requires s.queue[0].runId in s.store.jobs
    ensures ShapeRight(Next(s, Dequeue(w)))
  {
    var item, found := s.queue[0], s.queue[0].runId in s.store.stored;
    var t := Next(s, Dequeue(w));
    hide LocksMatch, Fifo;
    if Skips(s, item, found) {
      PlacesDrop(s.places, s.queue, s.workers);
      assert s.workers[w := Idle] == s.workers;
    } else {
      PlacesTake(s.places, s.queue, s.workers, w, t.workers[w]);
      LocksTake(s.workers, s.locks, w, item);
    }
    hide PlacesRight;
    PassQueuedFifo(s, w, t.workers[w], !Skips(s, item, found));
  }

  /** Order and locks of an item that passes straight from the queue. */
  lemma PassQueuedFifo(s: State, w: Worker, phase: Phase, ran: bool)
    requires Fifo(s.admitted, s.workers, s.locks, s.queue, s.submitted) && LocksMatch(s.workers, s.locks)
    requires Enabled(s, Dequeue(w)) && !Blocked(s, s.queue[0].lockKey)
    ensures Fifo(s.admitted + [Admission(s.queue[0], ran)], s.workers[w := phase], s.locks, s.queue[1..], s.submitted)
    ensures Fifo(s.admitted + [Admission(s.queue[0], ran)], s.workers[w := phase],
                 s.locks[s.queue[0].lockKey := LockOf(s.locks, s.queue[0].lockKey).(holder := Some(w))],
                 s.queue[1..], s.submitted)
  {
    FifoWorker(s.admitted, s.workers, s.locks, s.queue, s.submitted, w, phase);
    hide LocksMatch;
    FifoPassQueued(s.admitted, s.workers[w := phase], s.locks, s.queue, s.submitted, ran);
    FifoHolder(s.admitted + [Admission(s.queue[0], ran)], s.workers[w := phase], s.locks, s.queue[1..], s.submitted,
               s.queue[0].lockKey, Some(w));
  }

  lemma PassStore(s: State, item: Invocation, found: bool)
    requires StoreOk(s.store) && Known(s.store.jobs, item)
    requires !Skips(s, item, found) ==> NeverTouched(s, item.runId)
    ensures !Skips(s, item, found) ==>
              StoreOk(Put(s.store, item.runId, StartJob(s.store.jobs[item.runId])))
  {
    if !Skips(s, item, found) {
      StartJobOk(s.store.jobs[item.runId]);
      PutOk(s.store, item.runId, StartJob(s.store.jobs[item.runId]));
    }
  }

  lemma GrantKeepsInv(s: State, w: Worker)
    requires Inv(s) && Enabled(s, Grant(w))
    ensures Inv(Next(s, Grant(w)))
  {
    assert Busy(s.workers, w);
    assert Known(s.store.jobs, s.workers[w].item);
    hide StoreOk, ItemsKnown, AwaitsKnown, PlacesRight, StatusesFit, LogRight, LocksMatch, Fifo, Next;
    GrantRecords(s, w);
    GrantShape(s, w);
  }

  lemma GrantRecords(s: State, w: Worker)
    requires RecordsRight(s) && PlacesRight(s.places, s.queue, s.workers) && Enabled(s, Grant(w))
    ensures RecordsRight(Next(s, Grant(w)))
  {
    hide PlacesRight, JobOk, StatusesFit, LogRight, StoreOk, ItemsKnown, AwaitsKnown;
    var item, found := s.workers[w].item, s.workers[w].found;
    var lock := LockOf(s.locks, item.lockKey);
    var mid := s.(locks := s.locks[item.lockKey := lock.(waiters := lock.waiters[1..])]);
    var t := Next(s, Grant(w));
    PlaceOfWorker(s, w);
    BusyIsKnownItem(s, w);
    SkipMeansWithdrawn(s, w, item, found);
    PassStatuses(s, mid, w, item, found);
    PassStore(s, item, found);
    GrantItems(s.store.jobs, s.queue, s.workers, s.submitted, w, t.workers[w]);
    ItemsKnownFrame(s.store.jobs, t.store.jobs, s.queue, t.workers, s.submitted);
  }

  lemma GrantShape(s: State, w: Worker)
    requires ShapeRight(s) && Enabled(s, Grant(w)) && s.workers[w].item.runId in s.store.jobs
    ensures ShapeRight(Next(s, Grant(w)))
  {
    var item, found := s.workers[w].item, s.workers[w].found;
    var lock := LockOf(s.locks, item.lockKey);
    var t := Next(s, Grant(w));
    assert Busy(s.workers, w) && IdAt(s.workers, w) == item.runId;
    if Skips(s, item, found) {
      PlacesRelease(s.places, s.queue, s.workers, w);
    } else {
      PlacesKeep(s.places, s.queue, s.workers, w, t.workers[w]);
    }
    hide PlacesRight, LocksMatch, Fifo;
    LocksGrant(s.workers, s.locks, w, t.workers[w]);
    GrantFifo(s, w, t.workers[w], !Skips(s, item, found));
    assert t.locks
        == s.locks[item.lockKey := Lock(if t.workers[w].Idle? then None else Some(w), lock.waiters[1..])];
  }

  lemma GrantItems(
    jobs: map<RunId, Job>, queue: seq<Invocation>, ws: seq<Phase>, submitted: seq<Invocation>,
    w: Worker, phase: Phase)
    requires ItemsKnown(jobs, queue, ws, submitted) && AwaitsKnown(jobs, ws) && Busy(ws, w)
    requires phase == Idle || phase == Executing(ws[w].item, {})
    ensures ItemsKnown(jobs, queue, ws[w := phase], submitted) && AwaitsKnown(jobs, ws[w := phase])
  {
    var ws' := ws[w := phase];
    forall v: Worker | Busy(ws', v) ensures Known(jobs, ws'[v].item) { assert Busy(ws, v); }
    forall v: Worker, c | IsExecuting(ws', v) && c in ws'[v].awaiting
      ensures c in jobs
    {
      assert v != w && IsExecuting(ws, v);
    }
  }

  /** Order of the items when the first waiter of a lock passes. */
  lemma GrantFifo(s: State, w: Worker, phase: Phase, ran: bool)
    requires Fifo(s.admitted, s.workers, s.locks, s.queue, s.submitted) && LocksMatch(s.workers, s.locks)
    requires Enabled(s, Grant(w)) && (phase.Idle? || phase.Executing?)
    ensures var k, lock := s.workers[w].item.lockKey, LockOf(s.locks, s.workers[w].item.lockKey);
            Fifo(s.admitted + [Admission(s.workers[w].item, ran)], s.workers[w := phase],
                 s.locks[k := Lock(if phase.Idle? then None else Some(w), lock.waiters[1..])], s.queue, s.submitted)
  {
    var k, lock := s.workers[w].item.lockKey, LockOf(s.locks, s.workers[w].item.lockKey);
    var locks' := s.locks[k := lock.(waiters := lock.waiters[1..])];
    FifoPassWaiter(s.admitted, s.workers, s.locks, s.queue, s.submitted, w, ran);
    LeftTheLine(s.workers, s.locks, w);
    hide LocksMatch;
    FifoNotInLine(s.admitted + [Admission(s.workers[w].item, ran)], s.workers, locks', s.queue, s.submitted, w, phase);
    FifoHolder(s.admitted + [Admission(s.workers[w].item, ran)], s.workers[w := phase], locks', s.queue, s.submitted,
               k, if phase.Idle? then None else Some(w));
    assert locks'[k := LockOf(locks', k).(holder := if phase.Idle? then None else Some(w))]
        == s.locks[k := Lock(if phase.Idle? then None else Some(w), lock.waiters[1..])];
  }

  /** Once its first waiter has been taken off its line, that worker is in no line. */
  lemma LeftTheLine(ws: seq<Phase>, locks: map<LockKey, Lock>, w: Worker)
    requires LocksMatch(ws, locks) && IsWaiting(ws, w)
    requires LockOf(locks, ws[w].item.lockKey).waiters != [] && LockOf(locks, ws[w].item.lockKey).waiters[0] == w
    ensures var k, lock := ws[w].item.lockKey, LockOf(locks, ws[w].item.lockKey);
            InNoLine(locks[k := lock.(waiters := lock.waiters[1..])], w)
  {
    var k, lock := ws[w].item.lockKey, LockOf(locks, ws[w].item.lockKey);
    var locks' := locks[k := lock.(waiters := lock.waiters[1..])];
    forall j: LockKey ensures w !in LockOf(locks', j).waiters {
      assert LockMatches(ws, LockOf(locks, j), j);
    }
  }

  ghost predicate InNoLine(locks: map<LockKey, Lock>, w: Worker) {
    forall k: LockKey :: w !in LockOf(locks, k).waiters
  }

  lemma FifoNotInLine(
    admitted: seq<Admission>, ws: seq<Phase>, locks: map<LockKey, Lock>,
    queue: seq<Invocation>, submitted: seq<Invocation>, w: Worker, phase: Phase)
    requires Fifo(admitted, ws, locks, queue, submitted) && w < |ws| && InNoLine(locks, w)
    ensures Fifo(admitted, ws[w := phase], locks, queue, submitted)
  {
    var ws' := ws[w := phase];
    forall k: LockKey | k != ""
      ensures FifoAt(admitted, ws', LockOf(locks, k).waiters, queue, submitted, k)
    {
      var waiters := LockOf(locks, k).waiters;
      assert FifoAt(admitted, ws, waiters, queue, submitted, k);
      assert forall i :: 0 <= i < |waiters| ==> waiters[i] in waiters;
      assert ItemsOf(ws', waiters) == ItemsOf(ws, waiters);
    }
  }

  // ---------------------------------------------------------------- every action, every run

  lemma NextKeepsInv(s: State, a: Action)
    requires Inv(s) && Enabled(s, a)
    ensures Inv(Next(s, a))
  {
    match a
    case Submit(inv) => hide Inv; SubmitKeepsInv(s, inv);
    case Dequeue(w) =>
      hide Inv;
      if Blocked(s, s.queue[0].lockKey) { BlockKeepsInv(s, w); } else { PassQueuedKeepsInv(s, w); }
    case Grant(w) => hide Inv; GrantKeepsInv(s, w);
    case Finish(w, outcome, now) => hide Inv; FinishKeepsInv(s, w, outcome, now);
    case Await(w, child) => AwaitKeepsInv(s, w, child);
    case Resume(w, child) => ResumeKeepsInv(s, w, child);
    case Cancel(id, now) => hide Inv; CancelKeepsInv(s, id, now);
    case AbandonFuture(id) => hide Inv; AbandonKeepsInv(s, id);
    case PopRun(id) => hide Inv; PopKeepsInv(s, id);
    case Cleanup(now) => hide Inv; CleanupKeepsInv(s, now);
  }

  lemma AwaitKeepsInv(s: State, w: Worker, child: RunId)
    requires Inv(s) && Enabled(s, Await(w, child))
    ensures Inv(Next(s, Await(w, child)))
  {
    hide StoreOk, ItemsKnown, PlacesRight, StatusesFit, LogRight, LocksMatch, Fifo;
    AwaitingKeepsInv(s, w, s.workers[w].awaiting + {child});
  }

  lemma ResumeKeepsInv(s: State, w: Worker, child: RunId)
    requires Inv(s) && Enabled(s, Resume(w, child))
    ensures Inv(Next(s, Resume(w, child)))
  {
    hide StoreOk, ItemsKnown, PlacesRight, StatusesFit, LogRight, LocksMatch, Fifo;
    AwaitingKeepsInv(s, w, s.workers[w].awaiting - {child});
  }

  lemma {:induction false} ExecKeepsInv(s: State, acts: seq<Action>)
    requires Inv(s) && Legal(s, acts)
    ensures Inv(Exec(s, acts))
    decreases |acts|
  {
    if acts != [] {
      NextKeepsInv(s, acts[0]);
      hide Inv;
      ExecKeepsInv(Next(s, acts[0]), acts[1..]);
    }
  }

  lemma ReachableInv(s: State)
    requires Reachable(s)
    ensures Inv(s)
  {
    var limits, n, acts :| ReachableBy(limits, n, acts, s);
    InitInv(limits, n);
    hide Inv;
    ExecKeepsInv(Init(limits, n), acts);
  }
}
