/** States in which waiting runs hold each other up, reached through sessions past every check of a submission. */
module DeadlockExamples {
  import opened Basics
  import opened Jobs
  import opened Kernel
  import opened Invariants
  import opened Completion
  import opened Waits
  import opened Deadlock
  import opened Embraces
  import opened Sessions
  import opened SessionKernel
  import Retention

  const UNLIMITED := Retention.Limits(None, None)

  // ---------------------------------------------------------------- lines at a lock, in the kernel alone

  /** Workers and lock: worker 0 executes items[0] awaiting `awaiting`, workers 1 to j wait for its lock. */
  ghost predicate Standing(k: State, items: seq<Invocation>, j: nat, awaiting: set<RunId>) {
    && j < |items| && j < |k.workers|
    && k.workers[0] == Executing(items[0], awaiting)
    && (forall w :: 1 <= w <= j ==> k.workers[w] == Waiting(items[w], true))
    && (forall w :: j < w < |k.workers| ==> k.workers[w] == Idle)
    && LockOf(k.locks, items[0].lockKey).holder == Some(0)
    && (forall q: LockKey :: q != items[0].lockKey ==> LockOf(k.locks, q) == Lock(None, []))
    && items[0].runId in k.store.jobs && k.store.jobs[items[0].runId].status == Running
  }

  ghost predicate Lined(k: State, items: seq<Invocation>, j: nat) {
    Standing(k, items, j, {}) && k.queue == []
  }

  /** The same, with c submitted from worker 0's handler, awaited there and still queued. */
  ghost predicate Nesting(k: State, items: seq<Invocation>, j: nat, c: Invocation) {
    && Standing(k, items, j, {c.runId}) && k.queue == [c]
    && c.runId in k.store.stored && c.runId in k.store.jobs && k.store.jobs[c.runId] == NewJob(c)
  }

  /** Distinct runs under one non-empty key, without timeouts. */
  ghost predicate Rivals(items: seq<Invocation>) {
    && (forall i, j :: 0 <= i < j < |items| ==> items[i].runId != items[j].runId)
    && (forall i :: 0 <= i < |items| ==>
          items[i].lockKey == items[0].lockKey != "" && items[i].timeoutMs == None)
  }

  function Submitted(k: State, inv: Invocation): State
    requires inv.runId !in k.store.jobs
  {
    k.(store := Create(k.store, inv), queue := k.queue + [inv], submitted := k.submitted + [inv],
       places := k.places[inv.runId := Queued])
  }

  lemma FirstTaken(n: nat, items: seq<Invocation>)
    requires n >= 1 && items != [] && items[0].lockKey != ""
    ensures var k := Submitted(Init(UNLIMITED, n), items[0]);
            && Enabled(Init(UNLIMITED, n), Submit(items[0])) && k == Next(Init(UNLIMITED, n), Submit(items[0]))
            && Enabled(k, Dequeue(0)) && Lined(Next(k, Dequeue(0)), items, 0)
            && Next(k, Dequeue(0)).store.jobs.Keys == {items[0].runId} && |Next(k, Dequeue(0)).workers| == n
  {
  }

  /** The next rival is submitted, taken up by an idle worker, and joins the line. */
  lemma LineGrows(k: State, items: seq<Invocation>, j: nat)
    requires Lined(k, items, j) && Rivals(items) && j + 1 < |items| && j + 1 < |k.workers|
    requires items[j + 1].runId !in k.store.jobs
    ensures var k1 := Next(k, Submit(items[j + 1]));
            && Enabled(k, Submit(items[j + 1])) && Enabled(k1, Dequeue(j + 1))
            && Lined(Next(k1, Dequeue(j + 1)), items, j + 1)
            && Next(k1, Dequeue(j + 1)).store.jobs.Keys == k.store.jobs.Keys + {items[j + 1].runId}
            && |Next(k1, Dequeue(j + 1)).workers| == |k.workers|
  {
    hide Skips, Pass, Rivals;
    RivalsShare(items, j + 1);
    var k1 := Next(k, Submit(items[j + 1]));
    assert k1.queue == [items[j + 1]];
    assert Blocked(k1, items[j + 1].lockKey);
    var k2 := Next(k1, Dequeue(j + 1));
    assert k2.queue == [];
    assert k2.workers == k.workers[j + 1 := Waiting(items[j + 1], true)];
    forall q: LockKey | q != items[0].lockKey ensures LockOf(k2.locks, q) == Lock(None, []) {
      assert LockOf(k.locks, q) == Lock(None, []);
    }
  }

  lemma RivalsShare(items: seq<Invocation>, i: nat)
    requires Rivals(items) && 0 < i < |items|
    ensures items[i].lockKey == items[0].lockKey != "" && items[i].runId != items[0].runId
  {
  }

  /** Worker 0's handler submits c and awaits it. */
  lemma Nests(k: State, items: seq<Invocation>, j: nat, c: Invocation)
    requires Lined(k, items, j) && c.runId !in k.store.jobs
    ensures var k1 := Next(k, Submit(c));
            && Enabled(k, Submit(c)) && Enabled(k1, Await(0, c.runId))
            && Nesting(Next(k1, Await(0, c.runId)), items, j, c)
            && Next(k1, Await(0, c.runId)).store.jobs.Keys == k.store.jobs.Keys + {c.runId}
            && |Next(k1, Await(0, c.runId)).workers| == |k.workers|
  {
    var k1 := Next(k, Submit(c));
    assert k1.queue == [c];
    assert {} + {c.runId} == {c.runId};
  }

  // ---------------------------------------------------------------- no worker can step

  /** Every worker awaits an unresolved future, or waits for a held lock, or is idle beside an empty queue. */
  ghost predicate Halted(s: State) {
    && (s.queue == [] || forall w: Worker :: w < |s.workers| ==> Busy(s.workers, w))
    && (forall w: Worker :: IsWaiting(s.workers, w) ==> LockOf(s.locks, s.workers[w].item.lockKey).holder.Some?)
    && (forall w: Worker :: IsExecuting(s.workers, w) ==>
          s.workers[w].item.timeoutMs.None? && s.workers[w].awaiting != {})
    && (forall w: Worker, c :: IsExecuting(s.workers, w) && c in s.workers[w].awaiting && c in s.store.jobs ==>
          s.store.jobs[c].future == Unresolved)
  }

  lemma HaltedIsStuck(s: State)
    requires Halted(s)
    ensures WorkersStuck(s)
  {
    forall a: Action | WorkerAction(a) ensures !Enabled(s, a) {
      match a {
        case Dequeue(w) => assert s.queue != [] && w < |s.workers| ==> Busy(s.workers, w);
        case Grant(w) => assert IsWaiting(s.workers, w) ==>
                                  LockOf(s.locks, s.workers[w].item.lockKey).holder.Some?;
        case Finish(w, _, _) =>
        case Resume(w, c) =>
      }
    }
  }

  /** With every worker in the line and the child left in the queue, one item more than workers is in flight. */
  lemma FullLineIsStuck(k: State, items: seq<Invocation>, c: Invocation)
    requires |items| == |k.workers| >= 1 && Rivals(items) && Nesting(k, items, |items| - 1, c)
    ensures WorkersStuck(k) && InFlight(k) == |k.workers| + 1 && !AllDone(k)
    ensures c.parent == Some(items[0].runId) ==> AwaitsOwnChildren(k.store.jobs, k.workers)
  {
    AllBusyCount(k.workers);
    forall w: Worker | IsWaiting(k.workers, w) ensures LockOf(k.locks, k.workers[w].item.lockKey).holder.Some? {
      RivalsShare(items, w);
    }
    HaltedIsStuck(k);
  }

  // ---------------------------------------------------------------- reached through sessions

  /**
   * How a state is reached: whether nested keys are left unset, what awaitResult says on nested submissions, and
   * whether anything is submitted to the executor directly.
   */
  datatype Manner = Manner(keyless: bool, awaits: bool, direct: bool)

  predicate Fits(m: Manner, act: Act) {
    && (m.keyless ==> Keyless(act))
    && (act.Step? && act.a.Submit? ==> m.direct)
    && (act.SessionSubmit? && act.w.Some? ==> act.req.awaitResult == m.awaits)
  }

  ghost predicate ArisesIn(m: Manner, n: nat, acts: seq<Act>, sys: System) {
    ArisesBy(UNLIMITED, n, None, acts, sys) && forall i :: 0 <= i < |acts| ==> Fits(m, acts[i])
  }

  ghost predicate Comes(m: Manner, n: nat, sys: System) {
    exists acts :: ArisesIn(m, n, acts, sys)
  }

  lemma {:induction false} FeasibleAppend(sys: System, acts: seq<Act>, act: Act)
    requires Feasible(sys, acts) && Can(Executed(sys, acts), act)
    ensures Feasible(sys, acts + [act]) && Executed(sys, acts + [act]) == After(Executed(sys, acts), act)
    decreases |acts|
  {
    hide After, Can;
    if acts == [] {
      assert [] + [act] == [act] && [act][1..] == [];
    } else {
      assert (acts + [act])[1..] == acts[1..] + [act];
      FeasibleAppend(After(sys, acts[0]), acts[1..], act);
    }
  }

  lemma ComesNext(m: Manner, n: nat, sys: System, act: Act)
    requires Comes(m, n, sys) && Can(sys, act) && Fits(m, act)
    ensures Comes(m, n, After(sys, act))
  {
    hide After, Can, Fits, Feasible, Executed;
    var acts :| ArisesIn(m, n, acts, sys);
    FeasibleAppend(Fresh(UNLIMITED, n, None), acts, act);
    assert ArisesIn(m, n, acts + [act], After(sys, act));
  }

  lemma ComesStep(m: Manner, n: nat, sys: System, a: Action)
    requires Comes(m, n, sys) && Enabled(sys.kernel, a) && !a.Submit?
    ensures Comes(m, n, sys.(kernel := Next(sys.kernel, a)))
  {
    hide Comes, Next, Enabled;
    ComesNext(m, n, sys, Step(a));
  }

  const POLICY := Policy(PerSession, None, None, None)

  ghost predicate Welcoming(sys: System, sid: SessionId) {
    sid in sys.sessions && sys.sessions[sid].status == Open && sys.sessions[sid].policy == POLICY
  }

  lemma Opened(m: Manner, n: nat, sid: SessionId) returns (sys: System)
    ensures Comes(m, n, sys) && Welcoming(sys, sid) && sys.kernel == Init(UNLIMITED, n)
  {
    var fresh0 := Fresh(UNLIMITED, n, None);
    assert ArisesIn(m, n, [], fresh0);
    sys := After(fresh0, OpenSession(sid, POLICY, 0.0));
    ComesNext(m, n, fresh0, OpenSession(sid, POLICY, 0.0));
  }

  /** An accepted submission is one kernel submission, and the session stays as welcoming. */
  lemma ComesSubmit(m: Manner, n: nat, sys: System, sid: SessionId, w: Option<Worker>, req: Request, inv: Invocation)
    returns (sys': System)
    requires Comes(m, n, sys) && Welcoming(sys, sid) && inv.runId !in sys.kernel.store.jobs
    requires w.Some? ==> IsExecuting(sys.kernel.workers, w.value) && req.awaitResult == m.awaits
    requires m.keyless ==> req.lockKey == None
    requires Decide(sys, sid, w, req, None, inv.runId) == Accepted(inv)
    ensures Comes(m, n, sys') && Welcoming(sys', sid)
    ensures Enabled(sys.kernel, Submit(inv)) && sys'.kernel == Next(sys.kernel, Submit(inv))
  {
    hide Comes, Next, Decide;
    var act := SessionSubmit(sid, w, req, None, inv.runId, 0.0);
    sys' := After(sys, act);
    ComesNext(m, n, sys, act);
  }

  const SOURCE := "internal"

  /** The invocation of a root submitted with nothing set, outside any run. */
  function RootOf(sid: SessionId, id: RunId): Invocation {
    Invocation(id, SESSION_PREFIX + sid, Some(sid), None, 0, SOURCE, Some(SOURCE), None)
  }

  function ChildOf(sid: SessionId, parent: Invocation, id: RunId, key: LockKey): Invocation {
    Invocation(id, key, Some(sid), Some(parent.runId), parent.depth + 1, SOURCE, Some(SOURCE), None)
  }

  predicate Ours(inv: Invocation) {
    inv.source == SOURCE && inv.origin == Some(SOURCE)
  }

  lemma RootAccepted(sys: System, sid: SessionId, id: RunId)
    requires Welcoming(sys, sid)
    ensures Decide(sys, sid, None, Request(None, None, false), None, id) == Accepted(RootOf(sid, id))
  {
  }

  /** A nested submission passes unless the worker count or the parent's own key stands against it. */
  lemma ChildAccepted(sys: System, sid: SessionId, w: Worker, asked: Option<LockKey>, awaits: bool, id: RunId)
    requires Welcoming(sys, sid) && IsExecuting(sys.kernel.workers, w) && Ours(sys.kernel.workers[w].item)
    ensures var parent := sys.kernel.workers[w].item;
            var key := if asked.Some? then asked.value else ChildKey(parent.runId);
            Decide(sys, sid, Some(w), Request(asked, None, awaits), None, id)
            == if awaits && |sys.kernel.workers| < 2 then Refused(TooFewWorkers)
               else if awaits && parent.lockKey != "" && key == parent.lockKey then Refused(NestedSameKey)
               else Accepted(ChildOf(sid, parent, id, key))
  {
    assert SOURCE != "" && SOURCE != "rpc";
    hide ChildKey;
  }

  // ---------------------------------------------------------------- running out of workers

  function Roots(sid: SessionId, ids: seq<RunId>): seq<Invocation> {
    seq(|ids|, i requires 0 <= i < |ids| => RootOf(sid, ids[i]))
  }

  lemma RootsAreRivals(sid: SessionId, ids: seq<RunId>)
    requires NoDups(ids)
    ensures Rivals(Roots(sid, ids))
  {
    assert (SESSION_PREFIX + sid)[0] == 's';
  }

  /** Roots of one session under its default key: the first runs, the next j wait for it. */
  lemma {:induction false} LineArises(m: Manner, n: nat, sid: SessionId, ids: seq<RunId>, j: nat) returns (sys: System)
    requires n >= 1 && j < n && j < |ids| && NoDups(ids)
    ensures Comes(m, n, sys) && Welcoming(sys, sid) && Lined(sys.kernel, Roots(sid, ids), j)
    ensures |sys.kernel.workers| == n && sys.kernel.store.jobs.Keys == Elems(ids[..j + 1])
    decreases j
  {
    hide Comes, Welcoming, Lined, Next, Enabled, Decide, Rivals;
    var items, req := Roots(sid, ids), Request(None, None, false);
    RootsAreRivals(sid, ids);
    RivalKey(items);
    var before: System;
    if j == 0 {
      before := Opened(m, n, sid);
      FirstTaken(n, items);
    } else {
      before := LineArises(m, n, sid, ids, j - 1);
      assert ids[j] !in ids[..j];
      LineGrows(before.kernel, items, j - 1);
    }
    RootAccepted(before, sid, ids[j]);
    var submitted := ComesSubmit(m, n, before, sid, None, req, items[j]);
    ComesStep(m, n, submitted, Dequeue(j));
    sys := submitted.(kernel := Next(submitted.kernel, Dequeue(j)));
    WelcomingStays(submitted, sys, sid);
    assert ids[..j + 1] == ids[..j] + [ids[j]];
    assert Elems(ids[..j + 1]) == Elems(ids[..j]) + {ids[j]};
    if j == 0 { assert ids[..0] == []; }
  }

  lemma RivalKey(items: seq<Invocation>)
    requires Rivals(items) && items != []
    ensures items[0].lockKey != ""
  {
  }

  lemma WelcomingStays(sys: System, sys': System, sid: SessionId)
    requires Welcoming(sys, sid) && sys'.sessions == sys.sessions
    ensures Welcoming(sys', sid)
  {
  }

  /** The key derived for a child is not its parent's. */
  lemma DerivedKeyPasses(parent: Invocation)
    requires !IsChildKey(parent.lockKey)
    ensures ChildKey(parent.runId) != parent.lockKey
  {
  }

  lemma SessionKeyIsPlain(sid: SessionId)
    ensures !IsChildKey(SESSION_PREFIX + sid)
  {
    assert CHILD_PREFIX[0] == 'c' && (SESSION_PREFIX + sid)[0] == 's';
  }

  lemma LineExecutes(k: State, items: seq<Invocation>, j: nat)
    requires Lined(k, items, j)
    ensures IsExecuting(k.workers, 0) && k.workers[0].item == items[0]
  {
  }

  /**
   * n workers, n runs of one session under its default key, and one nested run the first of them awaits: no worker
   * can step, though only n + 1 items are in flight. Every submission has passed every check, among them, from two
   * workers on, the one that nested awaits need two workers.
   */
  lemma ExhaustionArises(n: nat, sid: SessionId, ids: seq<RunId>) returns (sys: System)
    requires n >= 1 && |ids| == n + 1 && NoDups(ids)
    ensures Comes(Manner(true, n >= 2, false), n, sys)
    ensures WorkersStuck(sys.kernel) && InFlight(sys.kernel) == n + 1 && !AllDone(sys.kernel)
    ensures AwaitsOwnChildren(sys.kernel.store.jobs, sys.kernel.workers)
  {
    hide Comes, Welcoming, Lined, Nesting, Next, Enabled, Decide, WorkersStuck, AllDone, InFlight, AwaitsOwnChildren;
    hide Rivals, IsChildKey, ChildKey;
    var m, roots, c := Manner(true, n >= 2, false), ids[..n], ids[n];
    assert NoDups(roots) && c !in roots[..n];
    var items := Roots(sid, roots);
    var line := LineArises(m, n, sid, roots, n - 1);
    LineExecutes(line.kernel, items, n - 1);
    var child := ChildOf(sid, items[0], c, ChildKey(items[0].runId));
    SessionKeyIsPlain(sid);
    DerivedKeyPasses(items[0]);
    ChildAccepted(line, sid, 0, None, m.awaits, c);
    Nests(line.kernel, items, n - 1, child);
    var submitted := ComesSubmit(m, n, line, sid, Some(0), Request(None, None, m.awaits), child);
    ComesStep(m, n, submitted, Await(0, c));
    sys := submitted.(kernel := Next(submitted.kernel, Await(0, c)));
    RootsAreRivals(sid, roots);
    FullLineIsStuck(sys.kernel, items, child);
  }

  /** The guard of two workers does not prevent it: three items on two workers are enough. */
  lemma TwoWorkersCanExhaust(sid: SessionId, a: RunId, b: RunId, c: RunId) returns (sys: System)
    requires a != b && a != c && b != c
    ensures Comes(Manner(true, true, false), 2, sys)
    ensures WorkersStuck(sys.kernel) && InFlight(sys.kernel) == 3 && !AllDone(sys.kernel)
    ensures AwaitsOwnChildren(sys.kernel.store.jobs, sys.kernel.workers)
  {
    hide Comes, WorkersStuck, InFlight, AllDone, AwaitsOwnChildren;
    sys := ExhaustionArises(2, sid, [a, b, c]);
  }

  // ---------------------------------------------------------------- the exact threshold

  function Distinct(n: nat): (ids: seq<RunId>)
    ensures |ids| == n && forall i :: 0 <= i < n ==> |ids[i]| == i
  {
    if n == 0 then [] else Distinct(n - 1) + [seq(n - 1, _ => 'x')]
  }

  /** In every state reached with at most m items in flight, being stuck means being done. */
  ghost predicate SafeUpTo(n: nat, m: nat) {
    forall limits, retain, acts, sys ::
      ArisesKeyless(limits, n, retain, acts, sys) && InFlight(sys.kernel) <= m && WorkersStuck(sys.kernel)
      && AwaitsOwnChildren(sys.kernel.store.jobs, sys.kernel.workers) ==>
        AllDone(sys.kernel)
  }

  /**
   * With nested keys unset and handlers awaiting their own children, n workers are safe from deadlock for up to m
   * items in flight if and only if m <= n: what a caller may check before submitting is that a worker is left for it.
   */
  lemma InFlightThreshold(n: nat, m: nat)
    requires n >= 1
    ensures SafeUpTo(n, m) <==> m <= n
  {
    hide AwaitsOwnChildren, InFlight, WorkersStuck, AllDone;
    if m <= n {
      forall limits, retain, acts, sys |
        ArisesKeyless(limits, n, retain, acts, sys) && InFlight(sys.kernel) <= m && WorkersStuck(sys.kernel)
        && AwaitsOwnChildren(sys.kernel.store.jobs, sys.kernel.workers)
        ensures AllDone(sys.kernel)
      {
        SessionsWithRoomComplete(limits, n, retain, acts, sys);
      }
    } else {
      var ids := Distinct(n + 1);
      assert NoDups(ids);
      var sys := ExhaustionArises(n, "", ids);
      ComesKeyless(Manner(true, n >= 2, false), n, sys);
    }
  }

  lemma ComesKeyless(m: Manner, n: nat, sys: System)
    requires Comes(m, n, sys) && m.keyless
    ensures exists acts :: ArisesKeyless(UNLIMITED, n, None, acts, sys)
  {
    hide Keyless, ArisesBy;
    var acts :| ArisesIn(m, n, acts, sys);
    assert forall i :: 0 <= i < |acts| ==> Fits(m, acts[i]);
    assert ArisesKeyless(UNLIMITED, n, None, acts, sys);
  }

  // ---------------------------------------------------------------- a key from further up

  /** Worker 1 takes up the child that worker 0 awaits, under a key of its own. */
  lemma ChildTaken(k: State, items: seq<Invocation>, c: Invocation)
    requires Nesting(k, items, 0, c) && |k.workers| >= 2 && c.lockKey != items[0].lockKey && c.runId != items[0].runId
    ensures Enabled(k, Dequeue(1))
    ensures var t := Next(k, Dequeue(1));
            && t.queue == [] && t.workers == k.workers[1 := Executing(c, {})]
            && LockOf(t.locks, items[0].lockKey).holder == Some(0)
            && t.store.jobs == k.store.jobs[c.runId := StartJob(NewJob(c))]
  {
    assert LockOf(k.locks, c.lockKey) == Lock(None, []);
    assert k.queue[1..] == [];
  }

  /** Worker 0 awaits middle at worker 1, which awaits inner, which waits at worker 2 for worker 0's key. */
  ghost predicate Cyclic(k: State, outer: Invocation, middle: Invocation, inner: Invocation) {
    && |k.workers| >= 3 && k.queue == []
    && k.workers[0] == Executing(outer, {middle.runId}) && k.workers[1] == Executing(middle, {inner.runId})
    && k.workers[2] == Waiting(inner, true) && (forall w :: 3 <= w < |k.workers| ==> k.workers[w] == Idle)
    && inner.lockKey == outer.lockKey && LockOf(k.locks, outer.lockKey).holder == Some(0)
    && middle.runId in k.store.jobs && k.store.jobs[middle.runId] == StartJob(NewJob(middle))
    && inner.runId in k.store.jobs && k.store.jobs[inner.runId] == NewJob(inner)
  }

  lemma CyclicIsEmbrace(k: State, outer: Invocation, middle: Invocation, inner: Invocation)
    requires Cyclic(k, outer, middle, inner) && outer.timeoutMs == middle.timeoutMs == None
    ensures Embrace(k, [0, 1, 2]) && WorkersStuck(k)
  {
    var ws: seq<Worker> := [0, 1, 2];
    assert ResultWait(k, ws[0], IdAt(k.workers, ws[1])) && ResultWait(k, ws[1], IdAt(k.workers, ws[2]));
    HaltedIsStuck(k);
  }

  /** inner is submitted by worker 1's handler, awaited there, and taken up by worker 2. */
  lemma InnerJoins(k: State, outer: Invocation, middle: Invocation, inner: Invocation)
    requires |k.workers| >= 3 && k.queue == [] && inner.runId !in k.store.jobs && inner.lockKey == outer.lockKey != ""
    requires k.workers[0] == Executing(outer, {middle.runId}) && k.workers[1] == Executing(middle, {})
    requires forall w :: 2 <= w < |k.workers| ==> k.workers[w] == Idle
    requires LockOf(k.locks, outer.lockKey).holder == Some(0)
    requires middle.runId in k.store.jobs && k.store.jobs[middle.runId] == StartJob(NewJob(middle))
    ensures Enabled(k, Submit(inner))
    ensures var k1 := Next(k, Submit(inner));
            && Enabled(k1, Await(1, inner.runId))
            && var k2 := Next(k1, Await(1, inner.runId));
            && Enabled(k2, Dequeue(2)) && Cyclic(Next(k2, Dequeue(2)), outer, middle, inner)
            && |Next(k2, Dequeue(2)).workers| == |k.workers|
  {
    hide Skips, Pass;
    var k1 := Next(k, Submit(inner));
    assert k1.queue == [inner];
    assert {} + {inner.runId} == {inner.runId};
    var k2 := Next(k1, Await(1, inner.runId));
    assert Blocked(k2, inner.lockKey);
    var k3 := Next(k2, Dequeue(2));
    assert k3.queue == [];
    assert k3.workers == k2.workers[2 := Waiting(inner, true)];
  }

  /** A derived key is not a root's session key, so naming the latter below a derived one passes the comparison. */
  lemma GrandparentKeyPasses(sid: SessionId, middle: Invocation, outer: RunId)
    requires middle.lockKey == ChildKey(outer)
    ensures middle.lockKey != SESSION_PREFIX + sid && ChildKey(outer) != SESSION_PREFIX + sid
    ensures SESSION_PREFIX + sid != "" && middle.lockKey != ""
  {
    SessionKeyIsPlain(sid);
    assert (SESSION_PREFIX + sid)[0] == 's' && ChildKey(outer)[0] == 'c';
  }

  /**
   * Comparing a nested key with the immediate parent's key only is not enough: a nested run that names its
   * grandparent's key is accepted, with awaitResult set, and the three runs hold each other up for ever, however many
   * further workers are idle.
   */
  lemma GrandparentKeyDeadlocks(n: nat, sid: SessionId, outer: RunId, middle: RunId, inner: RunId)
    returns (before: System, sys: System)
    requires n >= 3 && outer != middle && outer != inner && middle != inner
    ensures Comes(Manner(false, true, false), n, before) && IsExecuting(before.kernel.workers, 1)
    ensures var req := Request(Some(SESSION_PREFIX + sid), None, true);
            var parent := before.kernel.workers[1].item;
            && parent.parent == Some(outer) && before.kernel.workers[0].Executing?
            && before.kernel.workers[0].item.runId == outer
            && before.kernel.workers[0].item.lockKey == SESSION_PREFIX + sid
            && parent.lockKey != "" && parent.lockKey != SESSION_PREFIX + sid
            && Decide(before, sid, Some(1), req, None, inner).Accepted?
    ensures Comes(Manner(false, true, false), n, sys) && |sys.kernel.workers| == n
    ensures Embrace(sys.kernel, [0, 1, 2]) && WorkersStuck(sys.kernel)
    ensures forall w: Worker :: 3 <= w < n ==> sys.kernel.workers[w].Idle?
  {
    hide Comes, Welcoming, Lined, Next, Enabled, Decide, WorkersStuck, Rivals, IsChildKey, ChildKey;
    hide Embrace, Cyclic, Nesting;
    var m := Manner(false, true, false);
    var items := Roots(sid, [outer]);
    assert [outer][..1] == [outer] && Elems([outer]) == {outer};
    var line := LineArises(m, n, sid, [outer], 0);
    LineExecutes(line.kernel, items, 0);
    var mid := ChildOf(sid, items[0], middle, ChildKey(outer));
    SessionKeyIsPlain(sid);
    GrandparentKeyPasses(sid, mid, outer);
    DerivedKeyPasses(items[0]);
    ChildAccepted(line, sid, 0, None, true, middle);
    Nests(line.kernel, items, 0, mid);
    var s1 := ComesSubmit(m, n, line, sid, Some(0), Request(None, None, true), mid);
    ComesStep(m, n, s1, Await(0, middle));
    var s2 := s1.(kernel := Next(s1.kernel, Await(0, middle)));
    ChildTaken(s2.kernel, items, mid);
    ComesStep(m, n, s2, Dequeue(1));
    before := s2.(kernel := Next(s2.kernel, Dequeue(1)));
    NestingWorkers(s2.kernel, items, mid);
    WelcomingStays(s1, before, sid);
    var inn := ChildOf(sid, mid, inner, SESSION_PREFIX + sid);
    ChildAccepted(before, sid, 1, Some(SESSION_PREFIX + sid), true, inner);
    InnerJoins(before.kernel, items[0], mid, inn);
    var s3 := ComesSubmit(m, n, before, sid, Some(1), Request(Some(SESSION_PREFIX + sid), None, true), inn);
    ComesStep(m, n, s3, Await(1, inner));
    var s4 := s3.(kernel := Next(s3.kernel, Await(1, inner)));
    ComesStep(m, n, s4, Dequeue(2));
    sys := s4.(kernel := Next(s4.kernel, Dequeue(2)));
    CyclicWorkers(sys.kernel, items[0], mid, inn);
    CyclicIsEmbrace(sys.kernel, items[0], mid, inn);
  }

  lemma NestingWorkers(k: State, items: seq<Invocation>, c: Invocation)
    requires Nesting(k, items, 0, c)
    ensures k.workers[0] == Executing(items[0], {c.runId}) && forall w :: 1 <= w < |k.workers| ==> k.workers[w] == Idle
    ensures c.runId in k.store.jobs && k.store.jobs[c.runId] == NewJob(c)
  {
  }

  lemma CyclicWorkers(k: State, outer: Invocation, middle: Invocation, inner: Invocation)
    requires Cyclic(k, outer, middle, inner)
    ensures |k.workers| >= 3 && Busy(k.workers, 1) && Busy(k.workers, 2)
    ensures IdAt(k.workers, 1) == middle.runId && IdAt(k.workers, 2) == inner.runId
    ensures forall w: Worker :: 3 <= w < |k.workers| ==> k.workers[w].Idle?
  {
  }

  // ---------------------------------------------------------------- awaiting a stranger

  /** Worker 0 awaits b, which is queued under the key worker 0 holds; worker 1 takes it up. */
  lemma StrangerJoins(k: State, items: seq<Invocation>, b: Invocation)
    requires Nesting(k, items, 0, b) && |k.workers| >= 2 && b.lockKey == items[0].lockKey != ""
    requires b.runId != items[0].runId && items[0].timeoutMs == None
    ensures Enabled(k, Dequeue(1))
    ensures Embrace(Next(k, Dequeue(1)), [0, 1]) && WorkersStuck(Next(k, Dequeue(1)))
    ensures forall w: Worker :: 2 <= w < |k.workers| ==> Next(k, Dequeue(1)).workers[w].Idle?
    ensures |Next(k, Dequeue(1)).workers| == |k.workers|
  {
    hide Skips, Pass;
    assert Blocked(k, b.lockKey);
    var t := Next(k, Dequeue(1));
    assert t.queue == [];
    assert t.workers == k.workers[1 := Waiting(b, true)];
    assert LockOf(t.locks, b.lockKey).holder == Some(0);
    var ws: seq<Worker> := [0, 1];
    assert ResultWait(t, ws[0], IdAt(t.workers, ws[1]));
    HaltedIsStuck(t);
  }

  /**
   * Awaiting only one's own children is needed too. A handler that submits a parentless run to the executor directly
   * and awaits it waits for ever if both carry the same non-empty key, as two invocations with the default key do,
   * whatever number of workers is idle; no nested key has been set.
   */
  lemma StrangerAwaitDeadlocks(n: nat, a: Invocation, b: Invocation) returns (sys: System)
    requires n >= 2 && DirectRoot(a) && DirectRoot(b) && a.runId != b.runId && a.timeoutMs == b.timeoutMs == None
    requires a.lockKey == b.lockKey != "" && !IsChildKey(a.lockKey)
    ensures Comes(Manner(true, true, true), n, sys) && |sys.kernel.workers| == n
    ensures Embrace(sys.kernel, [0, 1]) && WorkersStuck(sys.kernel)
    ensures forall w: Worker :: 2 <= w < n ==> sys.kernel.workers[w].Idle?
  {
    hide Comes, Lined, Nesting, Next, Enabled, WorkersStuck, IsChildKey, Embrace;
    var m, items := Manner(true, true, true), [a];
    var s0 := Opened(m, n, "");
    FirstTaken(n, items);
    ComesNext(m, n, s0, Step(Submit(a)));
    var s1 := s0.(kernel := Next(s0.kernel, Submit(a)));
    ComesStep(m, n, s1, Dequeue(0));
    var s2 := s1.(kernel := Next(s1.kernel, Dequeue(0)));
    Nests(s2.kernel, items, 0, b);
    ComesNext(m, n, s2, Step(Submit(b)));
    var s3 := s2.(kernel := Next(s2.kernel, Submit(b)));
    ComesStep(m, n, s3, Await(0, b.runId));
    var s4 := s3.(kernel := Next(s3.kernel, Await(0, b.runId)));
    StrangerJoins(s4.kernel, items, b);
    ComesStep(m, n, s4, Dequeue(1));
    sys := s4.(kernel := Next(s4.kernel, Dequeue(1)));
  }
}
