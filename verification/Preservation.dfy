/** Every action keeps the kernel invariant: one small lemma per component an action touches. */
module Preservation {
  import opened Basics
  import opened Jobs
  import opened Kernel
  import opened Invariants

  // ---------------------------------------------------------------- places

  lemma PlacesSubmit(places: map<RunId, Place>, queue: seq<Invocation>, ws: seq<Phase>, inv: Invocation)
    requires PlacesRight(places, queue, ws) && inv.runId !in places
    ensures PlacesRight(places[inv.runId := Queued], queue + [inv], ws)
  {
    var places', queue' := places[inv.runId := Queued], queue + [inv];
    forall id | id in places' && places'[id] == Queued ensures InQueue(queue', id) {
      if id == inv.runId {
        assert queue'[|queue|].runId == id;
      } else {
        var i :| 0 <= i < |queue| && queue[i].runId == id;
        assert queue'[i].runId == id;
      }
    }
  }

  /** Changing worker w's phase leaves the other workers' items in their places. */
  lemma OtherWorkers(
    places: map<RunId, Place>, places': map<RunId, Place>, ws: seq<Phase>, ws': seq<Phase>, w: Worker)
    requires w < |ws| == |ws'| && ws' == ws[w := ws'[w]]
    requires forall v: Worker :: Busy(ws, v) ==> IdAt(ws, v) in places && places[IdAt(ws, v)] == AtWorker(v)
    requires forall id :: id in places && places[id].AtWorker? && places[id].w != w ==>
               id in places' && places'[id] == places[id]
    requires Busy(ws', w) ==> IdAt(ws', w) in places' && places'[IdAt(ws', w)] == AtWorker(w)
    ensures forall v: Worker :: Busy(ws', v) ==> IdAt(ws', v) in places' && places'[IdAt(ws', v)] == AtWorker(v)
  {
    forall v: Worker | Busy(ws', v)
      ensures IdAt(ws', v) in places' && places'[IdAt(ws', v)] == AtWorker(v)
    {
      if v != w {
        assert Busy(ws, v);
        assert places[IdAt(ws, v)] == AtWorker(v);
      }
    }
  }

  /** The head of the queue moves to the idle worker w. */
  lemma PlacesTake(places: map<RunId, Place>, queue: seq<Invocation>, ws: seq<Phase>, w: Worker, phase: Phase)
    requires PlacesRight(places, queue, ws) && queue != [] && w < |ws| && ws[w].Idle?
    requires !phase.Idle? && phase.item == queue[0]
    ensures PlacesRight(places[queue[0].runId := AtWorker(w)], queue[1..], ws[w := phase])
  {
    var places', queue', ws' := places[queue[0].runId := AtWorker(w)], queue[1..], ws[w := phase];
    OtherWorkers(places, places', ws, ws', w);
    forall id | id in places' && places'[id] == Queued ensures InQueue(queue', id) {
      var i :| 0 <= i < |queue| && queue[i].runId == id;
      assert queue'[i - 1].runId == id;
    }
  }

  /** The head of the queue is dropped. */
  lemma PlacesDrop(places: map<RunId, Place>, queue: seq<Invocation>, ws: seq<Phase>)
    requires PlacesRight(places, queue, ws) && queue != []
    ensures PlacesRight(places[queue[0].runId := Gone], queue[1..], ws)
  {
    var places', queue' := places[queue[0].runId := Gone], queue[1..];
    forall id | id in places' && places'[id] == Queued ensures InQueue(queue', id) {
      var i :| 0 <= i < |queue| && queue[i].runId == id;
      assert queue'[i - 1].runId == id;
    }
  }

  /** Worker w lets its item go. */
  lemma PlacesRelease(places: map<RunId, Place>, queue: seq<Invocation>, ws: seq<Phase>, w: Worker)
    requires PlacesRight(places, queue, ws) && Busy(ws, w)
    ensures PlacesRight(places[IdAt(ws, w) := Gone], queue, ws[w := Idle])
  {
    OtherWorkers(places, places[IdAt(ws, w) := Gone], ws, ws[w := Idle], w);
  }

  /** Worker w keeps its item. */
  lemma PlacesKeep(places: map<RunId, Place>, queue: seq<Invocation>, ws: seq<Phase>, w: Worker, phase: Phase)
    requires PlacesRight(places, queue, ws) && Busy(ws, w) && !phase.Idle? && phase.item == ws[w].item
    ensures PlacesRight(places, queue, ws[w := phase])
    ensures places[IdAt(ws, w) := AtWorker(w)] == places
  {
    OtherWorkers(places, places, ws, ws[w := phase], w);
  }

  // ---------------------------------------------------------------- locks

  lemma LocksJoin(ws: seq<Phase>, locks: map<LockKey, Lock>, w: Worker, item: Invocation, found: bool)
    requires LocksMatch(ws, locks) && w < |ws| && ws[w].Idle? && item.lockKey != ""
    ensures var lock := LockOf(locks, item.lockKey);
            LocksMatch(ws[w := Waiting(item, found)], locks[item.lockKey := lock.(waiters := lock.waiters + [w])])
  {
    var k := item.lockKey;
    var lock := LockOf(locks, k);
    var ws', locks' := ws[w := Waiting(item, found)], locks[k := lock.(waiters := lock.waiters + [w])];
    assert LockMatches(ws, lock, k);
    forall j: LockKey ensures LockMatches(ws', LockOf(locks', j), j) {
      assert LockMatches(ws, LockOf(locks, j), j);
    }
  }

  /** An idle worker starts executing an item, taking its lock if it names one. */
  lemma LocksTake(ws: seq<Phase>, locks: map<LockKey, Lock>, w: Worker, item: Invocation)
    requires LocksMatch(ws, locks) && w < |ws| && ws[w].Idle?
    requires item.lockKey != "" ==> LockOf(locks, item.lockKey).holder.None?
    ensures LocksMatch(ws[w := Executing(item, {})],
                       if item.lockKey == "" then locks
                       else locks[item.lockKey := LockOf(locks, item.lockKey).(holder := Some(w))])
  {
    var k := item.lockKey;
    var ws' := ws[w := Executing(item, {})];
    var locks' := if k == "" then locks else locks[k := LockOf(locks, k).(holder := Some(w))];
    forall j: LockKey ensures LockMatches(ws', LockOf(locks', j), j) {
      assert LockMatches(ws, LockOf(locks, j), j);
    }
  }

  /** The first waiter leaves the line: it becomes the holder, or lets the lock go at once. */
  lemma LocksGrant(ws: seq<Phase>, locks: map<LockKey, Lock>, w: Worker, phase: Phase)
    requires LocksMatch(ws, locks) && IsWaiting(ws, w)
    requires var lock := LockOf(locks, ws[w].item.lockKey);
             lock.holder.None? && lock.waiters != [] && lock.waiters[0] == w
    requires phase == Idle || phase == Executing(ws[w].item, {})
    ensures ws[w].item.lockKey != ""
    ensures var lock := LockOf(locks, ws[w].item.lockKey);
            LocksMatch(ws[w := phase],
                       locks[ws[w].item.lockKey := Lock(if phase.Idle? then None else Some(w), lock.waiters[1..])])
  {
    var k := ws[w].item.lockKey;
    var lock := LockOf(locks, k);
    assert LockMatches(ws, lock, k);
    assert lock.waiters == [w] + lock.waiters[1..];
    var ws' := ws[w := phase];
    var locks' := locks[k := Lock(if phase.Idle? then None else Some(w), lock.waiters[1..])];
    forall j: LockKey ensures LockMatches(ws', LockOf(locks', j), j) {
      assert LockMatches(ws, LockOf(locks, j), j);
      if j == k {
        assert forall v: Worker :: v in lock.waiters[1..] <==> v in lock.waiters && v != w;
      }
    }
  }

  lemma LocksRelease(ws: seq<Phase>, locks: map<LockKey, Lock>, w: Worker)
    requires LocksMatch(ws, locks) && IsExecuting(ws, w)
    ensures var k := ws[w].item.lockKey;
            LocksMatch(ws[w := Idle],
                       if k == "" then locks else locks[k := LockOf(locks, k).(holder := None)])
  {
    var k := ws[w].item.lockKey;
    var ws' := ws[w := Idle];
    var locks' := if k == "" then locks else locks[k := LockOf(locks, k).(holder := None)];
    forall j: LockKey ensures LockMatches(ws', LockOf(locks', j), j) {
      assert LockMatches(ws, LockOf(locks, j), j);
      if j == k && j != "" {
        assert LockOf(locks, j).holder == Some(w);
      }
    }
  }

  /** Which runs an executing worker awaits does not matter to the locks. */
  lemma LocksKeep(ws: seq<Phase>, locks: map<LockKey, Lock>, w: Worker, awaiting: set<RunId>)
    requires LocksMatch(ws, locks) && IsExecuting(ws, w)
    ensures LocksMatch(ws[w := ws[w].(awaiting := awaiting)], locks)
  {
    var ws' := ws[w := ws[w].(awaiting := awaiting)];
    forall j: LockKey ensures LockMatches(ws', LockOf(locks, j), j) {
      assert LockMatches(ws, LockOf(locks, j), j);
    }
  }

  /** Distinct executing workers hold distinct locks. */
  lemma HoldersDistinct(ws: seq<Phase>, locks: map<LockKey, Lock>, v: Worker, w: Worker)
    requires LocksMatch(ws, locks) && IsExecuting(ws, v) && IsExecuting(ws, w)
    requires ws[v].item.lockKey == ws[w].item.lockKey != ""
    ensures v == w
  {
    var k := ws[v].item.lockKey;
    assert LockMatches(ws, LockOf(locks, k), k);
    assert LockOf(locks, k).holder == Some(v);
  }

  // ---------------------------------------------------------------- per-key order

  lemma FifoSubmit(
    admitted: seq<Admission>, ws: seq<Phase>, locks: map<LockKey, Lock>,
    queue: seq<Invocation>, submitted: seq<Invocation>, inv: Invocation)
    requires Fifo(admitted, ws, locks, queue, submitted)
    ensures Fifo(admitted, ws, locks, queue + [inv], submitted + [inv])
  {
    forall k: LockKey | k != ""
      ensures FifoAt(admitted, ws, LockOf(locks, k).waiters, queue + [inv], submitted + [inv], k)
    {
      assert FifoAt(admitted, ws, LockOf(locks, k).waiters, queue, submitted, k);
      OfKeyAppend(queue, [inv], k);
      OfKeyAppend(submitted, [inv], k);
    }
  }

  /** A worker that waits for no lock may change its phase freely. */
  lemma FifoWorker(
    admitted: seq<Admission>, ws: seq<Phase>, locks: map<LockKey, Lock>,
    queue: seq<Invocation>, submitted: seq<Invocation>, w: Worker, phase: Phase)
    requires Fifo(admitted, ws, locks, queue, submitted) && LocksMatch(ws, locks)
    requires w < |ws| && !ws[w].Waiting?
    ensures Fifo(admitted, ws[w := phase], locks, queue, submitted)
  {
    var ws' := ws[w := phase];
    forall k: LockKey | k != ""
      ensures FifoAt(admitted, ws', LockOf(locks, k).waiters, queue, submitted, k)
    {
      var waiters := LockOf(locks, k).waiters;
      assert FifoAt(admitted, ws, waiters, queue, submitted, k);
      assert LockMatches(ws, LockOf(locks, k), k);
      assert forall i :: 0 <= i < |waiters| ==> waiters[i] in waiters;
      assert ItemsOf(ws', waiters) == ItemsOf(ws, waiters);
    }
  }

  /** Changing who holds a lock moves no item. */
  lemma FifoHolder(
    admitted: seq<Admission>, ws: seq<Phase>, locks: map<LockKey, Lock>,
    queue: seq<Invocation>, submitted: seq<Invocation>, k: LockKey, holder: Option<Worker>)
    requires Fifo(admitted, ws, locks, queue, submitted)
    ensures Fifo(admitted, ws, locks[k := LockOf(locks, k).(holder := holder)], queue, submitted)
  {
    var locks' := locks[k := LockOf(locks, k).(holder := holder)];
    assert forall j: LockKey :: LockOf(locks', j).waiters == LockOf(locks, j).waiters;
    forall j: LockKey | j != ""
      ensures FifoAt(admitted, ws, LockOf(locks', j).waiters, queue, submitted, j)
    {
      assert FifoAt(admitted, ws, LockOf(locks, j).waiters, queue, submitted, j);
    }
  }

  lemma OfKeyHead(queue: seq<Invocation>, k: LockKey)
    requires queue != []
    ensures OfKey(queue, k) == (if queue[0].lockKey == k then [queue[0]] else []) + OfKey(queue[1..], k)
  {
  }

  lemma ItemsOfAppend(ws: seq<Phase>, waiters: seq<Worker>, w: Worker)
    requires AllBusy(ws, waiters) && Busy(ws, w)
    ensures AllBusy(ws, waiters + [w])
    ensures ItemsOf(ws, waiters + [w]) == ItemsOf(ws, waiters) + [ws[w].item]
  {
    assert AllBusy(ws, waiters + [w]);
  }

  lemma Reassociate<T>(a: seq<T>, b: seq<T>, c: seq<T>, d: seq<T>)
    ensures a + b + (c + d) == a + (b + c) + d
  {
  }

  lemma FifoJoinAt(
    admitted: seq<Admission>, ws: seq<Phase>, waiters: seq<Worker>,
    queue: seq<Invocation>, submitted: seq<Invocation>, w: Worker)
    requires queue != [] && Busy(ws, w) && ws[w].item == queue[0]
    requires FifoAt(admitted, ws, waiters, queue, submitted, queue[0].lockKey)
    ensures FifoAt(admitted, ws, waiters + [w], queue[1..], submitted, queue[0].lockKey)
  {
    var k := queue[0].lockKey;
    OfKeyHead(queue, k);
    ItemsOfAppend(ws, waiters, w);
    Reassociate(OfKey(Admitted(admitted), k), ItemsOf(ws, waiters), [queue[0]], OfKey(queue[1..], k));
  }

  lemma FifoOtherKey(
    admitted: seq<Admission>, ws: seq<Phase>, waiters: seq<Worker>,
    queue: seq<Invocation>, submitted: seq<Invocation>, k: LockKey)
    requires queue != [] && queue[0].lockKey != k && FifoAt(admitted, ws, waiters, queue, submitted, k)
    ensures FifoAt(admitted, ws, waiters, queue[1..], submitted, k)
  {
    OfKeyHead(queue, k);
    assert OfKey(queue, k) == OfKey(queue[1..], k);
  }

  /** The head of the queue, now at the busy worker w, joins the line for its lock. */
  lemma FifoJoin(
    admitted: seq<Admission>, ws: seq<Phase>, locks: map<LockKey, Lock>,
    queue: seq<Invocation>, submitted: seq<Invocation>, w: Worker)
    requires Fifo(admitted, ws, locks, queue, submitted)
    requires queue != [] && queue[0].lockKey != "" && Busy(ws, w) && ws[w].item == queue[0]
    ensures var k, lock := queue[0].lockKey, LockOf(locks, queue[0].lockKey);
            Fifo(admitted, ws, locks[k := lock.(waiters := lock.waiters + [w])], queue[1..], submitted)
  {
    var k := queue[0].lockKey;
    var locks' := locks[k := LockOf(locks, k).(waiters := LockOf(locks, k).waiters + [w])];
    forall j: LockKey | j != ""
      ensures FifoAt(admitted, ws, LockOf(locks', j).waiters, queue[1..], submitted, j)
    {
      hide FifoAt;
      assert FifoAt(admitted, ws, LockOf(locks, j).waiters, queue, submitted, j);
      if j == k {
        FifoJoinAt(admitted, ws, LockOf(locks, j).waiters, queue, submitted, w);
      } else {
        FifoOtherKey(admitted, ws, LockOf(locks, j).waiters, queue, submitted, j);
      }
    }
  }

  /** The head of the queue passes straight through a free lock, or needs none. */
  lemma FifoPassQueuedAt(
    admitted: seq<Admission>, ws: seq<Phase>, waiters: seq<Worker>,
    queue: seq<Invocation>, submitted: seq<Invocation>, ran: bool, k: LockKey)
    requires FifoAt(admitted, ws, waiters, queue, submitted, k)
    requires queue != [] && (queue[0].lockKey == k ==> waiters == [])
    ensures FifoAt(admitted + [Admission(queue[0], ran)], ws, waiters, queue[1..], submitted, k)
  {
    AdmittedAppend(admitted, Admission(queue[0], ran));
    OfKeyAppend(Admitted(admitted), [queue[0]], k);
    OfKeyHead(queue, k);
  }

  lemma FifoPassQueued(
    admitted: seq<Admission>, ws: seq<Phase>, locks: map<LockKey, Lock>,
    queue: seq<Invocation>, submitted: seq<Invocation>, ran: bool)
    requires Fifo(admitted, ws, locks, queue, submitted)
    requires queue != [] && (queue[0].lockKey != "" ==> LockOf(locks, queue[0].lockKey).waiters == [])
    ensures Fifo(admitted + [Admission(queue[0], ran)], ws, locks, queue[1..], submitted)
  {
    hide FifoAt;
    var admitted' := admitted + [Admission(queue[0], ran)];
    forall j: LockKey | j != ""
      ensures FifoAt(admitted', ws, LockOf(locks, j).waiters, queue[1..], submitted, j)
    {
      FifoPassQueuedAt(admitted, ws, LockOf(locks, j).waiters, queue, submitted, ran, j);
    }
  }

  lemma FifoPassWaiterAt(
    admitted: seq<Admission>, ws: seq<Phase>, waiters: seq<Worker>,
    queue: seq<Invocation>, submitted: seq<Invocation>, ran: bool)
    requires waiters != [] && Busy(ws, waiters[0]) && ws[waiters[0]].item.lockKey != ""
    requires FifoAt(admitted, ws, waiters, queue, submitted, ws[waiters[0]].item.lockKey)
    ensures FifoAt(admitted + [Admission(ws[waiters[0]].item, ran)], ws, waiters[1..], queue, submitted,
                   ws[waiters[0]].item.lockKey)
  {
    var item, k := ws[waiters[0]].item, ws[waiters[0]].item.lockKey;
    AdmittedAppend(admitted, Admission(item, ran));
    OfKeyAppend(Admitted(admitted), [item], k);
    assert ItemsOf(ws, waiters) == [item] + ItemsOf(ws, waiters[1..]);
  }

  lemma FifoAdmitOtherKey(
    admitted: seq<Admission>, ws: seq<Phase>, waiters: seq<Worker>,
    queue: seq<Invocation>, submitted: seq<Invocation>, e: Admission, k: LockKey)
    requires e.item.lockKey != k && FifoAt(admitted, ws, waiters, queue, submitted, k)
    ensures FifoAt(admitted + [e], ws, waiters, queue, submitted, k)
  {
    AdmittedAppend(admitted, e);
    OfKeyAppend(Admitted(admitted), [e.item], k);
    assert OfKey(Admitted(admitted + [e]), k) == OfKey(Admitted(admitted), k);
  }

  /** The first waiter of a lock passes. */
  lemma FifoPassWaiter(
    admitted: seq<Admission>, ws: seq<Phase>, locks: map<LockKey, Lock>,
    queue: seq<Invocation>, submitted: seq<Invocation>, w: Worker, ran: bool)
    requires Fifo(admitted, ws, locks, queue, submitted) && IsWaiting(ws, w) && ws[w].item.lockKey != ""
    requires LockOf(locks, ws[w].item.lockKey).waiters != [] && LockOf(locks, ws[w].item.lockKey).waiters[0] == w
    ensures var k, lock := ws[w].item.lockKey, LockOf(locks, ws[w].item.lockKey);
            Fifo(admitted + [Admission(ws[w].item, ran)], ws,
                 locks[k := lock.(waiters := lock.waiters[1..])], queue, submitted)
  {
    var k := ws[w].item.lockKey;
    var e := Admission(ws[w].item, ran);
    var locks' := locks[k := LockOf(locks, k).(waiters := LockOf(locks, k).waiters[1..])];
    forall j: LockKey | j != ""
      ensures FifoAt(admitted + [e], ws, LockOf(locks', j).waiters, queue, submitted, j)
    {
      hide FifoAt;
      assert FifoAt(admitted, ws, LockOf(locks, j).waiters, queue, submitted, j);
      if j == k {
        FifoPassWaiterAt(admitted, ws, LockOf(locks, j).waiters, queue, submitted, ran);
      } else {
        FifoAdmitOtherKey(admitted, ws, LockOf(locks, j).waiters, queue, submitted, e, j);
      }
    }
  }
}
