/** A cycle of a key rule made real: runs that obey the rule, past every check, waiting in a circle. */
module KeyCycles {
  import opened Basics
  import opened Jobs
  import opened Kernel
  import opened Invariants
  import opened Completion
  import opened Waits
  import opened KeyRules
  import opened Sessions
  import opened SessionKernel
  import opened DeadlockExamples

  /**
   * keys[i] may stand directly above keys[i + 1], and the last is the first. Run ids[w] is executed by worker w. The
   * first m are roots under the first m keys; the last m are leaves, each under the key after its root's; between
   * them there is a row of m keyless runs if e == 2 * m, and none if e == m. Run ids[w]'s parent is ids[w - m].
   */
  datatype Plan = Plan(sid: SessionId, keys: seq<LockKey>, m: nat, e: nat, ids: seq<RunId>)

  ghost predicate PlanOk(p: Plan) {
    && p.m >= 1 && |p.keys| == p.m + 1 && p.keys[p.m] == p.keys[0] && NoDups(p.keys[..p.m])
    && (forall i :: 0 <= i < |p.keys| ==> p.keys[i] != "")
    && ((p.e == p.m && p.m >= 2) || p.e == 2 * p.m)
    && |p.ids| == p.e + p.m && NoDups(p.ids)
  }

  function KeyOf(p: Plan, w: nat): LockKey
    requires |p.keys| == p.m + 1 && p.m <= p.e && w < p.e + p.m
  {
    if w < p.m then p.keys[w] else if w < p.e then "" else p.keys[w - p.e + 1]
  }

  function InvOf(p: Plan, w: nat): (inv: Invocation)
    requires p.m >= 1 && |p.keys| == p.m + 1 && p.m <= p.e && w < p.e + p.m == |p.ids|
    ensures inv.runId == p.ids[w] && inv.lockKey == KeyOf(p, w) && inv.timeoutMs == None && Ours(inv)
  {
    if w < p.m then RootOf(p.sid, p.ids[w]).(lockKey := p.keys[w])
    else ChildOf(p.sid, InvOf(p, w - p.m), p.ids[w], KeyOf(p, w))
  }

  lemma Lineage(p: Plan, w: nat)
    requires p.m >= 1 && |p.keys| == p.m + 1 && p.m <= p.e && w < p.e + p.m == |p.ids|
    ensures w < p.m ==> InvOf(p, w).parent == None && InvOf(p, w).depth == 0
    ensures w >= p.m ==>
              InvOf(p, w).parent == Some(p.ids[w - p.m]) && InvOf(p, w).depth == InvOf(p, w - p.m).depth + 1
  {
  }

  // ---------------------------------------------------------------- the state after t runs have been taken up

  function PhaseOf(p: Plan, t: nat, w: nat): Phase
    requires p.m >= 1 && |p.keys| == p.m + 1 && p.m <= p.e && w < p.e + p.m == |p.ids|
  {
    if w >= p.e then Waiting(InvOf(p, w), true)
    else Executing(InvOf(p, w), if w + p.m < t then {p.ids[w + p.m]} else {})
  }

  ghost predicate WorkersShape(ws: seq<Phase>, p: Plan, t: nat)
    requires PlanOk(p) && t <= |p.ids|
  {
    && t <= |ws|
    && (forall w :: 0 <= w < t ==> ws[w] == PhaseOf(p, t, w))
    && (forall w :: t <= w < |ws| ==> ws[w] == Idle)
  }

  ghost predicate LocksShape(locks: map<LockKey, Lock>, p: Plan, t: nat)
    requires PlanOk(p)
  {
    forall i :: 0 <= i < p.m ==> if i < t then LockOf(locks, p.keys[i]).holder == Some(i)
                                 else LockOf(locks, p.keys[i]) == Lock(None, [])
  }

  ghost predicate JobsShape(jobs: map<RunId, Job>, p: Plan, t: nat)
    requires PlanOk(p) && t <= |p.ids|
  {
    && (forall id :: id in jobs ==> id in p.ids[..t])
    && (forall w :: 0 <= w < t ==>
          && p.ids[w] in jobs && jobs[p.ids[w]].inv == InvOf(p, w) && jobs[p.ids[w]].future == Unresolved
          && jobs[p.ids[w]].status == if w < p.e then Running else Pending)
  }

  ghost predicate Shape(k: State, p: Plan, t: nat)
    requires PlanOk(p) && t <= |p.ids|
  {
    WorkersShape(k.workers, p, t) && LocksShape(k.locks, p, t) && JobsShape(k.store.jobs, p, t) && k.queue == []
  }

  // ---------------------------------------------------------------- steps of the kernel

  /** inv is queued alone and known; worker w starts it. */
  lemma StartsAlone(k: State, inv: Invocation, w: Worker)
    requires k.queue == [inv] && w < |k.workers| && k.workers[w].Idle? && !Blocked(k, inv.lockKey)
    requires inv.runId in k.store.stored && inv.runId in k.store.jobs && k.store.jobs[inv.runId] == NewJob(inv)
    ensures Enabled(k, Dequeue(w))
    ensures var t := Next(k, Dequeue(w));
            && t.queue == [] && t.workers == k.workers[w := Executing(inv, {})]
            && t.store.jobs == k.store.jobs[inv.runId := StartJob(NewJob(inv))]
            && t.locks == if inv.lockKey == "" then k.locks
                          else k.locks[inv.lockKey := LockOf(k.locks, inv.lockKey).(holder := Some(w))]
  {
    assert k.queue[1..] == [];
  }

  lemma WaitsAlone(k: State, inv: Invocation, w: Worker)
    requires k.queue == [inv] && w < |k.workers| && k.workers[w].Idle? && Blocked(k, inv.lockKey)
    requires inv.runId in k.store.stored
    ensures Enabled(k, Dequeue(w))
    ensures var t := Next(k, Dequeue(w));
            && t.queue == [] && t.workers == k.workers[w := Waiting(inv, true)] && t.store.jobs == k.store.jobs
            && exists lock :: t.locks == k.locks[inv.lockKey := lock]
                              && lock.holder == LockOf(k.locks, inv.lockKey).holder
  {
    hide Skips, Pass;
    assert k.queue[1..] == [];
    var lock := LockOf(k.locks, inv.lockKey);
    assert Next(k, Dequeue(w)).locks == k.locks[inv.lockKey := lock.(waiters := lock.waiters + [w])];
  }

  lemma Submits(k: State, inv: Invocation)
    requires k.queue == [] && inv.runId !in k.store.jobs
    ensures Enabled(k, Submit(inv))
    ensures var t := Next(k, Submit(inv));
            && t.queue == [inv] && t.workers == k.workers && t.locks == k.locks
            && t.store.jobs == k.store.jobs[inv.runId := NewJob(inv)] && inv.runId in t.store.stored
  {
  }

  lemma Awaits(k: State, v: Worker, c: RunId)
    requires IsExecuting(k.workers, v) && c in k.store.stored && c in k.store.jobs
    ensures Enabled(k, Await(v, c))
    ensures Next(k, Await(v, c))
         == k.(workers := k.workers[v := k.workers[v].(awaiting := k.workers[v].awaiting + {c})])
  {
  }

  // ---------------------------------------------------------------- shapes grow

  lemma OtherIds(p: Plan, t: nat, w: nat)
    requires PlanOk(p) && t < |p.ids| && w < |p.ids| && w != t
    ensures p.ids[w] != p.ids[t]
  {
  }

  lemma FreshId(k: State, p: Plan, t: nat)
    requires PlanOk(p) && t < |p.ids| && Shape(k, p, t)
    ensures p.ids[t] !in k.store.jobs
  {
    hide WorkersShape, LocksShape, InvOf;
    assert p.ids[t] !in p.ids[..t];
  }

  lemma JobsGrow(jobs: map<RunId, Job>, p: Plan, t: nat)
    requires PlanOk(p) && t < |p.ids| && JobsShape(jobs, p, t)
    ensures var job := if t < p.e then StartJob(NewJob(InvOf(p, t))) else NewJob(InvOf(p, t));
            JobsShape(jobs[p.ids[t] := job], p, t + 1)
  {
    hide InvOf, PlanOk;
    MIsPositive(p);
    var jobs' := jobs[p.ids[t] := if t < p.e then StartJob(NewJob(InvOf(p, t))) else NewJob(InvOf(p, t))];
    assert p.ids[..t + 1] == p.ids[..t] + [p.ids[t]];
    forall w | 0 <= w < t + 1
      ensures p.ids[w] in jobs' && jobs'[p.ids[w]].inv == InvOf(p, w) && jobs'[p.ids[w]].future == Unresolved
      ensures jobs'[p.ids[w]].status == if w < p.e then Running else Pending
    {
      if w < t { OtherIds(p, t, w); }
    }
  }

  lemma SameKeySameRoot(p: Plan, i: nat, j: nat)
    requires PlanOk(p) && i < p.m && j < p.m && p.keys[i] == p.keys[j]
    ensures i == j
  {
    assert p.keys[..p.m][i] == p.keys[..p.m][j];
  }

  /** Root t takes its lock. */
  lemma LocksGrow(locks: map<LockKey, Lock>, p: Plan, t: nat)
    requires PlanOk(p) && t < p.m && LocksShape(locks, p, t)
    ensures LocksShape(locks[p.keys[t] := LockOf(locks, p.keys[t]).(holder := Some(t))], p, t + 1)
  {
    var locks' := locks[p.keys[t] := LockOf(locks, p.keys[t]).(holder := Some(t))];
    forall i | 0 <= i < p.m
      ensures if i < t + 1 then LockOf(locks', p.keys[i]).holder == Some(i)
              else LockOf(locks', p.keys[i]) == Lock(None, [])
    {
      if p.keys[i] == p.keys[t] { SameKeySameRoot(p, i, t); }
    }
  }

  /** A longer line at a held lock changes no holder. */
  lemma LocksStay(locks: map<LockKey, Lock>, p: Plan, t: nat, key: LockKey, lock: Lock)
    requires PlanOk(p) && t >= p.m && LocksShape(locks, p, t) && lock.holder == LockOf(locks, key).holder
    ensures LocksShape(locks[key := lock], p, t + 1) && LocksShape(locks, p, t + 1)
  {
  }

  /** Taking up run t changes the phase of its parent's worker only. */
  lemma PhaseStays(p: Plan, t: nat, w: nat)
    requires PlanOk(p) && t < |p.ids| && w < t
    ensures if w + p.m == t then PhaseOf(p, t + 1, w) == Executing(InvOf(p, w), {p.ids[t]})
            else PhaseOf(p, t + 1, w) == PhaseOf(p, t, w)
  {
    hide InvOf;
  }

  lemma WorkersGrow(ws: seq<Phase>, p: Plan, t: nat)
    requires PlanOk(p) && t < |p.ids| && WorkersShape(ws, p, t) && t < |ws|
    ensures var parents := if t < p.m then ws else ws[t - p.m := Executing(InvOf(p, t - p.m), {p.ids[t]})];
            WorkersShape(parents[t := PhaseOf(p, t + 1, t)], p, t + 1)
  {
    hide InvOf, PhaseOf, PlanOk;
    MIsPositive(p);
    var parents := if t < p.m then ws else ws[t - p.m := Executing(InvOf(p, t - p.m), {p.ids[t]})];
    var ws' := parents[t := PhaseOf(p, t + 1, t)];
    forall w: nat | w < t + 1 ensures ws'[w] == PhaseOf(p, t + 1, w) {
      if w < t { PhaseStays(p, t, w); }
    }
  }

  lemma MIsPositive(p: Plan)
    requires PlanOk(p)
    ensures p.m >= 1 && |p.keys| == p.m + 1 && p.m <= p.e && |p.ids| == p.e + p.m
  {
  }

  /** The root under the key a leaf wants. */
  function RootIx(p: Plan, i: nat): nat {
    if i == p.m then 0 else i
  }

  lemma KeyIsHeld(locks: map<LockKey, Lock>, p: Plan, t: nat, i: nat)
    requires PlanOk(p) && t >= p.m && LocksShape(locks, p, t) && i <= p.m
    ensures RootIx(p, i) < p.m && p.keys[i] == p.keys[RootIx(p, i)] != ""
    ensures LockOf(locks, p.keys[i]).holder == Some(RootIx(p, i))
  {
    assert LockOf(locks, p.keys[RootIx(p, i)]).holder == Some(RootIx(p, i));
  }

  /** Root t is submitted and starts at worker t. */
  lemma RootTaken(k: State, p: Plan, t: nat)
    requires PlanOk(p) && t < p.m && t < |k.workers| && Shape(k, p, t)
    ensures var k1 := Next(k, Submit(InvOf(p, t)));
            && Enabled(k, Submit(InvOf(p, t))) && Enabled(k1, Dequeue(t))
            && Shape(Next(k1, Dequeue(t)), p, t + 1) && |Next(k1, Dequeue(t)).workers| == |k.workers|
  {
    hide Next, Enabled, InvOf, JobsShape;
    var inv := InvOf(p, t);
    FreshId(k, p, t);
    Submits(k, inv);
    assert LockOf(k.locks, p.keys[t]) == Lock(None, []);
    StartsAlone(Next(k, Submit(inv)), inv, t);
    WorkersGrow(k.workers, p, t);
    LocksGrow(k.locks, p, t);
    JobsGrow(k.store.jobs, p, t);
    assert k.store.jobs[inv.runId := NewJob(inv)][inv.runId := StartJob(NewJob(inv))]
        == k.store.jobs[inv.runId := StartJob(NewJob(inv))];
  }

  /** Run t is submitted and awaited by its parent's handler at worker t - m. */
  lemma ChildAwaited(k: State, p: Plan, t: nat)
    requires PlanOk(p) && p.m <= t < |p.ids| && t < |k.workers| && Shape(k, p, t)
    ensures var k1 := Next(k, Submit(InvOf(p, t)));
            && Enabled(k, Submit(InvOf(p, t))) && Enabled(k1, Await(t - p.m, p.ids[t]))
            && var k2 := Next(k1, Await(t - p.m, p.ids[t]));
            && k2.queue == [InvOf(p, t)] && k2.locks == k.locks && p.ids[t] in k2.store.stored
            && k2.workers == k.workers[t - p.m := Executing(InvOf(p, t - p.m), {p.ids[t]})]
            && k2.store.jobs == k.store.jobs[p.ids[t] := NewJob(InvOf(p, t))]
    ensures IsExecuting(k.workers, t - p.m) && k.workers[t - p.m].item == InvOf(p, t - p.m)
  {
    hide Next, Enabled, InvOf, JobsShape, LocksShape;
    FreshId(k, p, t);
    Submits(k, InvOf(p, t));
    assert k.workers[t - p.m] == PhaseOf(p, t, t - p.m) == Executing(InvOf(p, t - p.m), {});
    assert {} + {p.ids[t]} == {p.ids[t]};
    Awaits(Next(k, Submit(InvOf(p, t))), t - p.m, p.ids[t]);
  }

  /** Then worker t takes it up: a keyless run starts, a leaf waits for the root that holds its key. */
  lemma ChildTaken(k: State, k2: State, p: Plan, t: nat)
    requires PlanOk(p) && p.m <= t < |p.ids| && t < |k.workers| && Shape(k, p, t)
    requires k2.queue == [InvOf(p, t)] && k2.locks == k.locks && p.ids[t] in k2.store.stored
    requires k2.workers == k.workers[t - p.m := Executing(InvOf(p, t - p.m), {p.ids[t]})]
    requires k2.store.jobs == k.store.jobs[p.ids[t] := NewJob(InvOf(p, t))]
    ensures Enabled(k2, Dequeue(t))
    ensures Shape(Next(k2, Dequeue(t)), p, t + 1) && |Next(k2, Dequeue(t)).workers| == |k.workers|
  {
    hide Next, Enabled, InvOf, JobsShape, LocksShape;
    var inv := InvOf(p, t);
    WorkersGrow(k.workers, p, t);
    JobsGrow(k.store.jobs, p, t);
    LocksStay(k.locks, p, t, "", LockOf(k.locks, ""));
    if t < p.e {
      StartsAlone(k2, inv, t);
      assert k2.store.jobs[inv.runId := StartJob(NewJob(inv))] == k.store.jobs[inv.runId := StartJob(NewJob(inv))];
    } else {
      KeyIsHeld(k.locks, p, t, t - p.e + 1);
      WaitsAlone(k2, inv, t);
      var lock :| Next(k2, Dequeue(t)).locks == k.locks[inv.lockKey := lock]
                  && lock.holder == LockOf(k.locks, inv.lockKey).holder;
      LocksStay(k.locks, p, t, inv.lockKey, lock);
    }
  }

  // ---------------------------------------------------------------- through sessions

  lemma KeyedRootAccepted(sys: System, sid: SessionId, id: RunId, key: LockKey)
    requires Welcoming(sys, sid)
    ensures Decide(sys, sid, None, Request(Some(key), None, false), None, id)
            == Accepted(RootOf(sid, id).(lockKey := key))
  {
  }

  /** No child asks for its parent's own key: the parent has none, or the two keys differ. */
  lemma GuardPasses(p: Plan, t: nat)
    requires PlanOk(p) && p.m <= t < |p.ids|
    ensures KeyOf(p, t) == "" || KeyOf(p, t) != InvOf(p, t - p.m).lockKey
  {
    hide InvOf;
    if p.m >= 2 && t >= p.e { NextKeyDiffers(p, t - p.e); }
  }

  lemma NextKeyDiffers(p: Plan, i: nat)
    requires PlanOk(p) && p.m >= 2 && i < p.m
    ensures p.keys[i] != p.keys[i + 1]
  {
    var keys := p.keys[..p.m];
    assert keys[i] != keys[RootIx(p, i + 1)];
  }

  ghost predicate Built(sys: System, p: Plan, n: nat, t: nat)
    requires PlanOk(p) && t <= |p.ids|
  {
    && Comes(Manner(false, true, false), n, sys) && Welcoming(sys, p.sid)
    && |sys.kernel.workers| == n && Shape(sys.kernel, p, t)
  }

  lemma {:induction false} PlanArises(n: nat, p: Plan, t: nat) returns (sys: System)
    requires PlanOk(p) && t <= |p.ids| <= n
    ensures Built(sys, p, n, t)
    decreases t
  {
    hide PlanOk, Built;
    MIsPositive(p);
    if t == 0 {
      sys := NothingBuilt(n, p);
    } else {
      var before := PlanArises(n, p, t - 1);
      if t - 1 < p.m {
        sys := RootBuilt(before, n, p, t - 1);
      } else {
        sys := ChildBuilt(before, n, p, t - 1);
      }
    }
  }

  lemma NothingBuilt(n: nat, p: Plan) returns (sys: System)
    requires PlanOk(p) && n >= |p.ids|
    ensures Built(sys, p, n, 0)
  {
    hide Comes, Welcoming;
    sys := Opened(Manner(false, true, false), n, p.sid);
  }

  lemma RootBuilt(sys: System, n: nat, p: Plan, t: nat) returns (sys': System)
    requires PlanOk(p) && t < p.m && n >= |p.ids| && Built(sys, p, n, t)
    ensures Built(sys', p, n, t + 1)
  {
    hide Comes, Welcoming, Next, Enabled, Decide, Shape;
    var m, inv := Manner(false, true, false), InvOf(p, t);
    KeyedRootAccepted(sys, p.sid, p.ids[t], p.keys[t]);
    FreshId(sys.kernel, p, t);
    RootTaken(sys.kernel, p, t);
    var submitted := ComesSubmit(m, n, sys, p.sid, None, Request(Some(p.keys[t]), None, false), inv);
    ComesStep(m, n, submitted, Dequeue(t));
    sys' := submitted.(kernel := Next(submitted.kernel, Dequeue(t)));
    WelcomingStays(submitted, sys', p.sid);
  }

  lemma ChildBuilt(sys: System, n: nat, p: Plan, t: nat) returns (sys': System)
    requires PlanOk(p) && p.m <= t < |p.ids| <= n && Built(sys, p, n, t)
    ensures Built(sys', p, n, t + 1)
  {
    hide Comes, Welcoming, Next, Enabled, Decide, Shape;
    var m, inv, v := Manner(false, true, false), InvOf(p, t), t - p.m;
    FreshId(sys.kernel, p, t);
    ChildAwaited(sys.kernel, p, t);
    GuardPasses(p, t);
    ChildAccepted(sys, p.sid, v, Some(KeyOf(p, t)), true, p.ids[t]);
    var s1 := ComesSubmit(m, n, sys, p.sid, Some(v), Request(Some(KeyOf(p, t)), None, true), inv);
    ComesStep(m, n, s1, Await(v, p.ids[t]));
    var s2 := s1.(kernel := Next(s1.kernel, Await(v, p.ids[t])));
    ChildTaken(sys.kernel, s2.kernel, p, t);
    ComesStep(m, n, s2, Dequeue(t));
    sys' := s2.(kernel := Next(s2.kernel, Dequeue(t)));
    WelcomingStays(s1, sys', p.sid);
  }

  // ---------------------------------------------------------------- what has been built

  /** Every run of the plan, and what it waits for: a child's result, or the lock of the next root. */
  lemma WorkerOf(k: State, p: Plan, w: nat)
    requires PlanOk(p) && |p.ids| <= |k.workers| && Shape(k, p, |p.ids|) && w < |p.ids|
    ensures Busy(k.workers, w) && IdAt(k.workers, w) == p.ids[w] && k.workers[w].item == InvOf(p, w)
    ensures w < p.e ==> k.workers[w] == Executing(InvOf(p, w), {p.ids[w + p.m]})
    ensures w >= p.e ==> k.workers[w] == Waiting(InvOf(p, w), true)
    ensures p.ids[w] in k.store.jobs && k.store.jobs[p.ids[w]].inv == InvOf(p, w)
    ensures k.store.jobs[p.ids[w]].status.Active() && k.store.jobs[p.ids[w]].future == Unresolved
  {
    hide InvOf, LocksShape, PlanOk;
    MIsPositive(p);
    assert k.workers[w] == PhaseOf(p, |p.ids|, w);
  }

  lemma OnlyPlanned(k: State, p: Plan, id: RunId) returns (w: nat)
    requires PlanOk(p) && Shape(k, p, |p.ids|) && id in k.store.jobs
    ensures w < |p.ids| && p.ids[w] == id
  {
    hide InvOf, LocksShape, WorkersShape;
    assert p.ids[..|p.ids|] == p.ids;
    w :| w < |p.ids| && p.ids[w] == id;
  }

  lemma OwnChildrenAwaited(k: State, p: Plan)
    requires PlanOk(p) && |p.ids| <= |k.workers| && Shape(k, p, |p.ids|)
    ensures AwaitsOwnChildren(k.store.jobs, k.workers)
  {
    hide InvOf, JobsShape, LocksShape;
    forall w: Worker, c | IsExecuting(k.workers, w) && c in k.workers[w].awaiting && c in k.store.jobs
      ensures k.store.jobs[c].inv.parent == Some(k.workers[w].item.runId)
    {
      if w < |p.ids| {
        WorkerOf(k, p, w);
        WorkerOf(k, p, w + p.m);
        Lineage(p, w + p.m);
      }
    }
  }

  lemma PlanIsRooted(k: State, p: Plan)
    requires PlanOk(p) && |p.ids| <= |k.workers| && Shape(k, p, |p.ids|)
    ensures Rooted(k.store.jobs)
  {
    hide InvOf, Shape;
    forall id | id in k.store.jobs && k.store.jobs[id].inv.parent.Some?
      ensures k.store.jobs[id].inv.parent.value in k.store.jobs
      ensures k.store.jobs[id].inv.depth == k.store.jobs[k.store.jobs[id].inv.parent.value].inv.depth + 1
    {
      var w := OnlyPlanned(k, p, id);
      WorkerOf(k, p, w);
      Lineage(p, w);
      WorkerOf(k, p, w - p.m);
    }
  }

  /** The nearest non-empty key at or above a run that is no leaf is its root's. */
  lemma TopOfParent(k: State, p: Plan, w: nat)
    requires PlanOk(p) && |p.ids| <= |k.workers| && Shape(k, p, |p.ids|) && w < p.e && Rooted(k.store.jobs)
    ensures p.ids[w] in k.store.jobs
    ensures TopKey(k.store.jobs, p.ids[w]) == p.keys[if w < p.m then w else w - p.m]
  {
    hide InvOf, Shape;
    WorkerOf(k, p, w);
    Lineage(p, w);
    if w >= p.m {
      WorkerOf(k, p, w - p.m);
      Lineage(p, w - p.m);
    }
  }

  lemma PlanIsObedient(k: State, p: Plan, rule: KeyRule)
    requires PlanOk(p) && |p.ids| <= |k.workers| && Shape(k, p, |p.ids|) && Path(rule, p.keys)
    ensures Obedient(rule, k.store.jobs)
  {
    hide InvOf, Shape, Rooted, TopKey;
    PlanIsRooted(k, p);
    forall id | id in k.store.jobs ensures Obeys(rule, k.store.jobs, k.store.jobs[id].inv) {
      var w := OnlyPlanned(k, p, id);
      WorkerOf(k, p, w);
      Lineage(p, w);
      if w >= p.e {
        TopOfParent(k, p, w - p.m);
        assert rule(p.keys[w - p.e], p.keys[w - p.e + 1]);
      }
    }
  }

  // ---------------------------------------------------------------- the circle

  ghost predicate Leads(k: State, a: RunId, b: RunId) {
    exists path :: |path| >= 2 && Chain(k, path) && path[0] == a && path[|path| - 1] == b
  }

  lemma EdgeLeads(k: State, a: RunId, b: RunId)
    requires WaitsFor(k, a, b)
    ensures Leads(k, a, b)
  {
    hide WaitsFor;
    assert Chain(k, [a, b]);
  }

  lemma LeadsOn(k: State, a: RunId, b: RunId, c: RunId)
    requires Leads(k, a, b) && Leads(k, b, c)
    ensures Leads(k, a, c)
  {
    hide WaitsFor;
    var p :| |p| >= 2 && Chain(k, p) && p[0] == a && p[|p| - 1] == b;
    var q :| |q| >= 2 && Chain(k, q) && q[0] == b && q[|q| - 1] == c;
    var path := p + q[1..];
    forall i | 0 <= i < |path| - 1 ensures WaitsFor(k, path[i], path[i + 1]) {
      if i < |p| - 1 {
        assert WaitsFor(k, p[i], p[i + 1]);
      } else {
        var j := i - (|p| - 1);
        assert path[i] == q[j] && path[i + 1] == q[j + 1];
        assert WaitsFor(k, q[j], q[j + 1]);
      }
    }
    assert Chain(k, path) && path[|path| - 1] == c;
  }

  lemma ParentWaits(k: State, p: Plan, w: nat)
    requires PlanOk(p) && |p.ids| <= |k.workers| && Shape(k, p, |p.ids|) && w < p.e
    ensures WaitsFor(k, p.ids[w], p.ids[w + p.m])
  {
    hide InvOf, Shape;
    WorkerOf(k, p, w);
    WorkerOf(k, p, w + p.m);
    assert ResultWait(k, w, p.ids[w + p.m]) && IdAt(k.workers, w) == p.ids[w];
  }

  lemma LeafWaits(k: State, p: Plan, i: nat)
    requires PlanOk(p) && |p.ids| <= |k.workers| && Shape(k, p, |p.ids|) && i < p.m
    ensures WaitsFor(k, p.ids[p.e + i], p.ids[RootIx(p, i + 1)])
  {
    hide InvOf, JobsShape, WorkersShape;
    KeyIsHeld(k.locks, p, |p.ids|, i + 1);
    WorkerOf(k, p, p.e + i);
    WorkerOf(k, p, RootIx(p, i + 1));
    assert LockWait(k, p.e + i, RootIx(p, i + 1));
  }

  /** From one root to the next: through its child, or through the keyless run between. */
  lemma RootLeads(k: State, p: Plan, i: nat)
    requires PlanOk(p) && |p.ids| <= |k.workers| && Shape(k, p, |p.ids|) && i < p.m
    ensures Leads(k, p.ids[i], p.ids[RootIx(p, i + 1)])
  {
    hide InvOf, Shape, WaitsFor, Leads;
    ParentWaits(k, p, i);
    EdgeLeads(k, p.ids[i], p.ids[i + p.m]);
    if p.e == 2 * p.m {
      ParentWaits(k, p, i + p.m);
      EdgeLeads(k, p.ids[i + p.m], p.ids[i + p.m + p.m]);
      LeadsOn(k, p.ids[i], p.ids[i + p.m], p.ids[i + p.m + p.m]);
    }
    LeafWaits(k, p, i);
    EdgeLeads(k, p.ids[p.e + i], p.ids[RootIx(p, i + 1)]);
    LeadsOn(k, p.ids[i], p.ids[p.e + i], p.ids[RootIx(p, i + 1)]);
  }

  lemma {:induction false} CircleCloses(k: State, p: Plan, i: nat)
    requires PlanOk(p) && |p.ids| <= |k.workers| && Shape(k, p, |p.ids|) && i < p.m
    ensures Leads(k, p.ids[0], p.ids[RootIx(p, i + 1)])
    decreases i
  {
    hide InvOf, Shape, Leads;
    RootLeads(k, p, i);
    if i > 0 {
      CircleCloses(k, p, i - 1);
      LeadsOn(k, p.ids[0], p.ids[i], p.ids[RootIx(p, i + 1)]);
    }
  }

  lemma BusyIsPlanned(k: State, p: Plan, w: Worker)
    requires PlanOk(p) && Shape(k, p, |p.ids|) && Busy(k.workers, w)
    ensures w < |p.ids| == p.e + p.m && p.m <= p.e
  {
    hide InvOf, JobsShape, LocksShape;
  }

  lemma QueueIsEmpty(k: State, p: Plan)
    requires PlanOk(p) && Shape(k, p, |p.ids|)
    ensures k.queue == []
  {
    hide PlanOk, JobsShape, LocksShape, WorkersShape;
  }

  lemma LeafKeyIsHeld(k: State, p: Plan, w: nat)
    requires PlanOk(p) && Shape(k, p, |p.ids|) && p.e <= w < p.e + p.m
    ensures LockOf(k.locks, KeyOf(p, w)).holder.Some?
  {
    hide InvOf, JobsShape, WorkersShape;
    KeyIsHeld(k.locks, p, |p.ids|, w - p.e + 1);
  }

  /** And no worker can step, whatever number of further workers is idle. */
  lemma PlanIsStuck(k: State, p: Plan)
    requires PlanOk(p) && |p.ids| <= |k.workers| && Shape(k, p, |p.ids|)
    ensures WorkersStuck(k)
  {
    hide InvOf, Shape, PlanOk;
    forall w: Worker | Busy(k.workers, w)
      ensures IsWaiting(k.workers, w) ==> LockOf(k.locks, k.workers[w].item.lockKey).holder.Some?
      ensures IsExecuting(k.workers, w) ==> k.workers[w].item.timeoutMs.None? && k.workers[w].awaiting != {}
      ensures IsExecuting(k.workers, w) ==>
                forall c :: c in k.workers[w].awaiting ==> c in k.store.jobs && k.store.jobs[c].future == Unresolved
    {
      BusyIsPlanned(k, p, w);
      WorkerOf(k, p, w);
      if w >= p.e { LeafKeyIsHeld(k, p, w); } else { WorkerOf(k, p, w + p.m); }
    }
    QueueIsEmpty(k, p);
    HaltedIsStuck(k);
  }

  // ---------------------------------------------------------------- the exact theorem

  /**
   * Whatever arises through sessions, nested submissions obeying the rule and handlers awaiting their own children:
   * waiting never closes a circle. If `guarded`, all nested submissions set awaitResult, so that both checks of a
   * nested await are made.
   */
  ghost predicate SafeRule(rule: KeyRule, guarded: bool) {
    forall limits, n, retain, acts, sys, path ::
      ArisesBy(limits, n, retain, acts, sys) && (guarded ==> AwaitsSet(acts))
      && Obedient(rule, sys.kernel.store.jobs) && AwaitsOwnChildren(sys.kernel.store.jobs, sys.kernel.workers)
      && |path| >= 2 && Chain(sys.kernel, path) ==>
        path[0] != path[|path| - 1]
  }

  ghost predicate AwaitsSet(acts: seq<Act>) {
    forall i :: 0 <= i < |acts| ==> (acts[i].SessionSubmit? && acts[i].w.Some? ==> acts[i].req.awaitResult)
  }

  /** A cycle of the rule as a plan; a single key stands above itself with a keyless run between. */
  lemma PlanFor(rule: KeyRule, cycle: seq<LockKey>) returns (p: Plan)
    requires SimpleCycle(rule, cycle)
    ensures PlanOk(p) && p.keys == cycle
  {
    var m := |cycle| - 1;
    var e := if m == 1 then 2 else m;
    p := Plan("", cycle, m, e, Distinct(e + m));
  }

  /** A rule with a cycle lets a circle of waiting runs arise that holds every one of its workers for ever. */
  lemma CycleArises(rule: KeyRule, cycle: seq<LockKey>, extra: nat) returns (n: nat, sys: System, id: RunId)
    requires SimpleCycle(rule, cycle)
    ensures n >= extra && Comes(Manner(false, true, false), n, sys)
    ensures Obedient(rule, sys.kernel.store.jobs)
    ensures AwaitsOwnChildren(sys.kernel.store.jobs, sys.kernel.workers)
    ensures Leads(sys.kernel, id, id) && WorkersStuck(sys.kernel)
    ensures |sys.kernel.workers| == n && forall w: Worker :: n - extra <= w < n ==> sys.kernel.workers[w].Idle?
  {
    hide Comes, Welcoming, Obedient, AwaitsOwnChildren, Leads, WorkersStuck, PhaseOf, InvOf, LocksShape, JobsShape;
    var p := PlanFor(rule, cycle);
    n := |p.ids| + extra;
    sys := PlanArises(n, p, |p.ids|);
    PlanIsObedient(sys.kernel, p, rule);
    OwnChildrenAwaited(sys.kernel, p);
    CircleCloses(sys.kernel, p, p.m - 1);
    PlanIsStuck(sys.kernel, p);
    id := p.ids[0];
  }

  lemma ComesAwaiting(n: nat, sys: System)
    requires Comes(Manner(false, true, false), n, sys)
    ensures exists acts :: ArisesBy(UNLIMITED, n, None, acts, sys) && AwaitsSet(acts)
  {
    hide ArisesBy;
    var m := Manner(false, true, false);
    var acts :| ArisesIn(m, n, acts, sys);
    assert forall i :: 0 <= i < |acts| ==> Fits(m, acts[i]);
    assert AwaitsSet(acts);
  }

  lemma InsideIsSafe(rule: KeyRule, less: KeyOrder, guarded: bool)
    requires Inside(rule, less)
    ensures SafeRule(rule, guarded)
  {
    hide Obedient, AwaitsOwnChildren, Chain, ArisesBy, Rising, Strict;
    forall limits, n, retain, acts, sys, path |
      ArisesBy(limits, n, retain, acts, sys) && (guarded ==> AwaitsSet(acts))
      && Obedient(rule, sys.kernel.store.jobs) && AwaitsOwnChildren(sys.kernel.store.jobs, sys.kernel.workers)
      && |path| >= 2 && Chain(sys.kernel, path)
      ensures path[0] != path[|path| - 1]
    {
      ObedientIsRising(rule, less, sys.kernel.store.jobs);
      InsideIsStrict(rule, less);
      SessionsWithRisingKeysWaitAcyclically(limits, n, retain, acts, sys, less, path);
    }
  }

  lemma InsideIsStrict(rule: KeyRule, less: KeyOrder)
    requires Inside(rule, less)
    ensures Strict(less)
  {
  }

  /**
   * A rule on (nearest non-empty key above, new key) rules out circular waiting if and only if it lies inside some
   * strict order on keys; the worker count and the parent's own key being checked makes no difference.
   */
  lemma SafeRulesLieInsideOrders(rule: KeyRule, guarded: bool)
    ensures SafeRule(rule, guarded) <==> InsideStrictOrder(rule)
  {
    hide Obedient, AwaitsOwnChildren, Chain, ArisesBy, Inside, SimpleCycle;
    var cycle := OrderOrCycle(rule);
    if InsideStrictOrder(rule) {
      var less :| Inside(rule, less);
      InsideIsSafe(rule, less, guarded);
    } else {
      var n, sys, id := CycleArises(rule, cycle, 0);
      ComesAwaiting(n, sys);
      var acts :| ArisesBy(UNLIMITED, n, None, acts, sys) && AwaitsSet(acts);
      var path :| |path| >= 2 && Chain(sys.kernel, path) && path[0] == id && path[|path| - 1] == id;
    }
  }

  /** What the check against the immediate parent's key amounts to, a different key, is not safe. */
  lemma DifferentKeyIsUnsafe(guarded: bool)
    ensures !SafeRule((above, key) => key != above, guarded)
  {
    var rule: KeyRule := (above, key) => key != above;
    SafeRulesLieInsideOrders(rule, guarded);
    if less :| Inside(rule, less) {
      var ks: seq<LockKey> := ["a", "b", "a"];
      assert Path(rule, ks);
      CycleBreaksOrder(rule, less, ks);
    }
  }
}
