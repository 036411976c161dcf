/** Session submissions that leave nested lock keys unset drive the kernel within the discipline of Deadlock. */
module SessionKernel {
  import opened Basics
  import opened Jobs
  import opened Kernel
  import opened Invariants
  import opened Safety
  import opened Completion
  import opened Waits
  import opened Deadlock
  import opened Sessions
  import opened SessionProofs
  import Retention

  /** Nested submissions leave lock_key unset, and nobody names a key of the derived form. */
  predicate Keyless(act: Act) {
    match act
    case Step(Submit(inv)) => !IsChildKey(inv.lockKey)
    case SessionSubmit(_, Some(_), req, _, _, _) => req.lockKey == None
    case SessionSubmit(_, None, req, _, _, _) => req.lockKey.Some? ==> !IsChildKey(req.lockKey.value)
    case _ => true
  }

  ghost predicate AllKeyless(acts: seq<Act>) {
    forall i :: 0 <= i < |acts| ==> Keyless(acts[i])
  }

  /** The kernel action a session action amounts to, if any. */
  function KernelAct(sys: System, act: Act): Option<Action>
    requires Can(sys, act)
  {
    match act
    case Step(a) => Some(a)
    case SessionSubmit(sid, w, req, outside, id, _) =>
      (match Decide(sys, sid, w, req, outside, id)
       case Accepted(inv) => Some(Submit(inv))
       case Refused(_) => None)
    case _ => None
  }

  ghost function KernelActs(sys: System, acts: seq<Act>): seq<Action>
    requires Feasible(sys, acts)
    decreases |acts|
  {
    if acts == [] then []
    else
      var rest := KernelActs(After(sys, acts[0]), acts[1..]);
      match KernelAct(sys, acts[0])
      case Some(a) => [a] + rest
      case None => rest
  }

  lemma RootKeyIsPlain(asked: Option<LockKey>, sid: SessionId, mode: LockMode)
    requires asked.Some? ==> !IsChildKey(asked.value)
    ensures !IsChildKey(ResolveLockKey(asked, sid, mode, None))
  {
    assert CHILD_PREFIX[0] == 'c' && (SESSION_PREFIX + sid)[0] == 's' && "global"[0] == 'g';
  }

  lemma KernelActIsStep(sys: System, act: Act)
    requires SysInv(sys) && Can(sys, act)
    ensures match KernelAct(sys, act)
            case Some(a) => Enabled(sys.kernel, a) && After(sys, act).kernel == Next(sys.kernel, a)
            case None => After(sys, act).kernel == sys.kernel
    ensures Keyless(act) && KernelAct(sys, act).Some? && Lineages(sys.kernel.store.jobs) ==>
              Disciplined(sys.kernel, KernelAct(sys, act).value)
  {
    hide SysInv, Next, Lineages, LimitReached;
    match act
    case SessionSubmit(sid, w, req, outside, id, _) =>
      if Decide(sys, sid, w, req, outside, id).Accepted? {
        AcceptedFits(sys, sid, w, req, outside, id);
        hide EffectiveOrigin;
        if w.None? && Keyless(act) {
          RootKeyIsPlain(req.lockKey, sid, sys.sessions[sid].policy.mode);
        }
      }
    case _ =>
  }

  lemma RunPrepend(s: State, a: Action, rest: seq<Action>)
    requires Enabled(s, a) && Legal(Next(s, a), rest)
    ensures Legal(s, [a] + rest) && Exec(s, [a] + rest) == Exec(Next(s, a), rest)
    ensures Disciplined(s, a) && DisciplinedRun(Next(s, a), rest) ==> DisciplinedRun(s, [a] + rest)
  {
    hide Enabled, Next, Disciplined;
    ExecStep(s, a, rest);
    assert ([a] + rest)[1..] == rest && ([a] + rest)[0] == a;
  }

  lemma {:induction false} SessionsDriveKernel(sys: System, acts: seq<Act>)
    requires SysInv(sys) && Feasible(sys, acts)
    ensures Legal(sys.kernel, KernelActs(sys, acts))
    ensures Exec(sys.kernel, KernelActs(sys, acts)) == Executed(sys, acts).kernel
    ensures AllKeyless(acts) && Lineages(sys.kernel.store.jobs) ==>
              DisciplinedRun(sys.kernel, KernelActs(sys, acts))
    decreases |acts|
  {
    if acts != [] {
      var sys' := After(sys, acts[0]);
      AfterKeepsSysInv(sys, acts[0]);
      KernelActIsStep(sys, acts[0]);
      InvOf(sys);
      hide SysInv, Inv, After, Next, Lineages, Enabled, Disciplined, Can, Keyless;
      SessionsDriveKernel(sys', acts[1..]);
      match KernelAct(sys, acts[0])
      case Some(a) =>
        RunPrepend(sys.kernel, a, KernelActs(sys', acts[1..]));
        if AllKeyless(acts) && Lineages(sys.kernel.store.jobs) {
          assert Keyless(acts[0]);
          NextKeepsLineages(sys.kernel, a);
          assert AllKeyless(acts[1..]);
        }
      case None =>
        assert AllKeyless(acts) ==> AllKeyless(acts[1..]);
    }
  }

  lemma InvOf(sys: System)
    requires SysInv(sys)
    ensures Inv(sys.kernel)
  {
  }

  ghost predicate ArisesKeyless(
    limits: Retention.Limits, n: nat, retain: Option<int>, acts: seq<Act>, sys: System)
  {
    ArisesBy(limits, n, retain, acts, sys) && AllKeyless(acts)
  }

  lemma KeylessIsDisciplined(limits: Retention.Limits, n: nat, retain: Option<int>, acts: seq<Act>, sys: System)
    requires ArisesKeyless(limits, n, retain, acts, sys)
    ensures var start := Fresh(limits, n, retain);
            DisciplinedReach(limits, n, KernelActs(start, acts), sys.kernel)
  {
    var start := Fresh(limits, n, retain);
    InitInv(limits, n);
    assert SysInv(start) && Lineages(start.kernel.store.jobs);
    hide SysInv, Inv, Lineages;
    SessionsDriveKernel(start, acts);
  }

  lemma ArisenFacts(limits: Retention.Limits, n: nat, retain: Option<int>, acts: seq<Act>, sys: System)
    requires ArisesBy(limits, n, retain, acts, sys)
    ensures Reachable(sys.kernel) && Rooted(sys.kernel.store.jobs) && Arises(sys)
  {
    var start := Fresh(limits, n, retain);
    InitInv(limits, n);
    assert SysInv(start) && Arises(sys);
    ArisesSysInv(sys);
    FamiliesAreRooted(sys.kernel.store.jobs);
    hide SysInv, Inv, Families, Rooted;
    SessionsDriveKernel(start, acts);
    assert ReachableBy(limits, n, KernelActs(start, acts), sys.kernel);
  }

  lemma FamiliesAreRooted(jobs: map<RunId, Job>)
    requires Families(jobs)
    ensures Rooted(jobs)
  {
    forall id | id in jobs && jobs[id].inv.parent.Some?
      ensures jobs[id].inv.parent.value in jobs
      ensures jobs[id].inv.depth == jobs[jobs[id].inv.parent.value].inv.depth + 1
    {
      assert Family(jobs, jobs[id].inv);
    }
  }

  /**
   * Through sessions, whatever keys are asked for: as long as non-empty keys rise from parent to child in some strict
   * order and handlers await their own children only, waiting never closes a cycle.
   */
  lemma SessionsWithRisingKeysWaitAcyclically(
    limits: Retention.Limits, n: nat, retain: Option<int>, acts: seq<Act>, sys: System,
    less: KeyOrder, path: seq<RunId>)
    requires ArisesBy(limits, n, retain, acts, sys) && |path| >= 2 && Chain(sys.kernel, path)
    requires AwaitsOwnChildren(sys.kernel.store.jobs, sys.kernel.workers)
    requires Strict(less) && Rising(less, sys.kernel.store.jobs)
    ensures path[0] != path[|path| - 1]
  {
    hide Chain, Reachable, Strict, AwaitsOwnChildren, Rising;
    ArisenFacts(limits, n, retain, acts, sys);
    RisingKeysWaitAcyclically(less, sys.kernel, path);
  }

  /** In particular as long as nested lock keys are left unset. */
  lemma SessionsWaitAcyclically(
    limits: Retention.Limits, n: nat, retain: Option<int>, acts: seq<Act>, sys: System, path: seq<RunId>)
    requires ArisesKeyless(limits, n, retain, acts, sys) && |path| >= 2 && Chain(sys.kernel, path)
    requires AwaitsOwnChildren(sys.kernel.store.jobs, sys.kernel.workers)
    ensures path[0] != path[|path| - 1]
  {
    hide Chain, WaitsFor, AwaitsOwnChildren;
    KeylessIsDisciplined(limits, n, retain, acts, sys);
    WaitingIsAcyclic(limits, n, KernelActs(Fresh(limits, n, retain), acts), sys.kernel, path);
  }

  /** And the only way to be stuck with unfinished runs is to have every worker occupied. */
  lemma SessionsStickOnlyByExhaustion(
    limits: Retention.Limits, n: nat, retain: Option<int>, acts: seq<Act>, sys: System, id: RunId)
    returns (w: Worker, c: RunId)
    requires n >= 1 && ArisesKeyless(limits, n, retain, acts, sys) && WorkersStuck(sys.kernel)
    requires AwaitsOwnChildren(sys.kernel.store.jobs, sys.kernel.workers)
    requires id in sys.kernel.store.jobs && sys.kernel.store.jobs[id].status.Active()
    ensures forall v: Worker :: v < n ==> Busy(sys.kernel.workers, v)
    ensures InFlight(sys.kernel) > n
    ensures ResultWait(sys.kernel, w, c) && c in sys.kernel.places && sys.kernel.places[c] == Queued
  {
    hide WorkersStuck, AwaitsOwnChildren, InFlight;
    KeylessIsDisciplined(limits, n, retain, acts, sys);
    w, c := OnlyExhaustionDeadlocks(limits, n, KernelActs(Fresh(limits, n, retain), acts), sys.kernel, id);
  }

  /** With at most as many items in flight as workers, being stuck means being done. */
  lemma SessionsWithRoomComplete(
    limits: Retention.Limits, n: nat, retain: Option<int>, acts: seq<Act>, sys: System)
    requires n >= 1 && ArisesKeyless(limits, n, retain, acts, sys) && InFlight(sys.kernel) <= n
    requires AwaitsOwnChildren(sys.kernel.store.jobs, sys.kernel.workers)
    ensures WorkersStuck(sys.kernel) ==> AllDone(sys.kernel)
  {
    hide WorkersStuck, AwaitsOwnChildren, InFlight, AllDone;
    KeylessIsDisciplined(limits, n, retain, acts, sys);
    NeverStuckWithRoom(limits, n, KernelActs(Fresh(limits, n, retain), acts), sys.kernel);
  }

  /** The key derived for a child is never its parent's own key, nor any other family's. */
  lemma DerivedKeyIsTheFamilys(
    limits: Retention.Limits, n: nat, retain: Option<int>, acts: seq<Act>, sys: System, id: RunId, other: RunId)
    requires ArisesKeyless(limits, n, retain, acts, sys)
    requires id in sys.kernel.store.jobs && sys.kernel.store.jobs[id].inv.parent.Some?
    requires other in sys.kernel.store.jobs
    ensures var jobs := sys.kernel.store.jobs;
            && jobs[id].inv.parent.value in jobs
            && jobs[jobs[id].inv.parent.value].inv.lockKey != jobs[id].inv.lockKey
            && (jobs[other].inv.lockKey == jobs[id].inv.lockKey <==> jobs[other].inv.parent == jobs[id].inv.parent)
  {
    var start := Fresh(limits, n, retain);
    KeylessIsDisciplined(limits, n, retain, acts, sys);
    InitInv(limits, n);
    assert Lineages(start.kernel.store.jobs);
    hide Inv;
    ExecKeepsLineages(start.kernel, KernelActs(start, acts));
    FamilyKeys(sys.kernel.store.jobs, id, other);
    FamilyKeys(sys.kernel.store.jobs, id, sys.kernel.store.jobs[id].inv.parent.value);
    assert Lineage(sys.kernel.store.jobs, sys.kernel.store.jobs[id].inv);
    SameParentSameDepth(sys.kernel.store.jobs, id);
  }

  lemma FamilyKeys(jobs: map<RunId, Job>, id: RunId, other: RunId)
    requires Lineages(jobs) && id in jobs && jobs[id].inv.parent.Some?
    ensures jobs[id].inv.parent.value in jobs
    ensures other in jobs ==>
              (jobs[other].inv.lockKey == jobs[id].inv.lockKey <==> jobs[other].inv.parent == jobs[id].inv.parent)
  {
    assert Lineage(jobs, jobs[id].inv);
    if other in jobs {
      assert Lineage(jobs, jobs[other].inv);
      if jobs[other].inv.parent.Some? && jobs[other].inv.lockKey == jobs[id].inv.lockKey {
        ChildKeyInjective(jobs[other].inv.parent.value, jobs[id].inv.parent.value);
      }
    }
  }

  /** A run is not its own parent's sibling. */
  lemma SameParentSameDepth(jobs: map<RunId, Job>, id: RunId)
    requires Lineages(jobs) && id in jobs && jobs[id].inv.parent.Some? && jobs[id].inv.parent.value in jobs
    ensures jobs[jobs[id].inv.parent.value].inv.parent != jobs[id].inv.parent
  {
    assert Lineage(jobs, jobs[id].inv);
    assert Lineage(jobs, jobs[jobs[id].inv.parent.value].inv);
  }

  // ---------------------------------------------------------------- derived keys beside explicit ones

  /** Nobody names a key of the derived form; other keys may be named, also on nested submissions. */
  predicate PlainNames(act: Act) {
    match act
    case Step(Submit(inv)) => !IsChildKey(inv.lockKey)
    case SessionSubmit(_, _, req, _, _, _) => req.lockKey.Some? ==> !IsChildKey(req.lockKey.value)
    case _ => true
  }

  /** A key of the derived form is the one derived from the run's parent. */
  predicate DerivedRight(inv: Invocation) {
    IsChildKey(inv.lockKey) ==> inv.parent.Some? && inv.lockKey == ChildKey(inv.parent.value)
  }

  ghost predicate AllDerivedRight(jobs: map<RunId, Job>) {
    forall id :: id in jobs ==> DerivedRight(jobs[id].inv)
  }

  lemma SubmittedDerivedRight(sys: System, act: Act)
    requires Can(sys, act) && PlainNames(act) && KernelAct(sys, act).Some? && KernelAct(sys, act).value.Submit?
    ensures DerivedRight(KernelAct(sys, act).value.inv)
  {
    hide LimitReached, MayDeadlock, IsChildKey, ChildKey, OriginSource, SubmitSource, ResolveDepth;
    if act.SessionSubmit? && act.w.None? {
      RootKeyIsPlain(act.req.lockKey, act.sid, sys.sessions[act.sid].policy.mode);
    }
  }

  lemma AfterKeepsDerivedRight(sys: System, act: Act)
    requires SysInv(sys) && Can(sys, act) && PlainNames(act) && AllDerivedRight(sys.kernel.store.jobs)
    ensures AllDerivedRight(After(sys, act).kernel.store.jobs)
  {
    hide SysInv, Inv, After, Next, Enabled, DerivedRight, KernelAct, PlainNames, Can;
    InvOf(sys);
    KernelActIsStep(sys, act);
    match KernelAct(sys, act) {
      case None => {}
      case Some(a) => {
        var jobs' := Next(sys.kernel, a).store.jobs;
        NextDomain(sys.kernel, a);
        NextEvolves(sys.kernel, a);
        if a.Submit? { SubmittedDerivedRight(sys, act); }
        forall id | id in jobs' ensures DerivedRight(jobs'[id].inv) {
          if id in sys.kernel.store.jobs { assert DerivedRight(sys.kernel.store.jobs[id].inv); }
        }
      }
    }
  }

  lemma {:induction false} ExecutedKeepsDerivedRight(sys: System, acts: seq<Act>)
    requires SysInv(sys) && Feasible(sys, acts) && AllDerivedRight(sys.kernel.store.jobs)
    requires forall i :: 0 <= i < |acts| ==> PlainNames(acts[i])
    ensures AllDerivedRight(Executed(sys, acts).kernel.store.jobs)
    decreases |acts|
  {
    hide SysInv, After, Can, AllDerivedRight, PlainNames;
    if acts != [] {
      AfterKeepsDerivedRight(sys, acts[0]);
      AfterKeepsSysInv(sys, acts[0]);
      ExecutedKeepsDerivedRight(After(sys, acts[0]), acts[1..]);
    }
  }

  /**
   * The same with other keys named beside the derived ones: a derived key is not the parent's own, and it is shared
   * exactly by those children of the parent that have derived keys too.
   */
  lemma DerivedKeysBesideExplicitOnes(
    limits: Retention.Limits, n: nat, retain: Option<int>, acts: seq<Act>, sys: System, id: RunId, other: RunId)
    requires ArisesBy(limits, n, retain, acts, sys) && forall i :: 0 <= i < |acts| ==> PlainNames(acts[i])
    requires id in sys.kernel.store.jobs && IsChildKey(sys.kernel.store.jobs[id].inv.lockKey)
    requires other in sys.kernel.store.jobs
    ensures var jobs := sys.kernel.store.jobs;
            && jobs[id].inv.parent.Some? && jobs[id].inv.parent.value in jobs
            && jobs[id].inv.lockKey == ChildKey(jobs[id].inv.parent.value)
            && jobs[jobs[id].inv.parent.value].inv.lockKey != jobs[id].inv.lockKey
            && (jobs[other].inv.lockKey == jobs[id].inv.lockKey
                <==> IsChildKey(jobs[other].inv.lockKey) && jobs[other].inv.parent == jobs[id].inv.parent)
  {
    hide SysInv, Inv, Feasible, Executed, PlainNames;
    FreshIsRight(limits, n, retain);
    ExecutedKeepsDerivedRight(Fresh(limits, n, retain), acts);
    ArisenFacts(limits, n, retain, acts, sys);
    var jobs := sys.kernel.store.jobs;
    assert DerivedRight(jobs[id].inv) && DerivedRight(jobs[other].inv);
    var parent := jobs[id].inv.parent.value;
    assert DerivedRight(jobs[parent].inv);
    if jobs[parent].inv.lockKey == jobs[id].inv.lockKey {
      ChildKeyInjective(parent, jobs[parent].inv.parent.value);
    }
    if jobs[other].inv.lockKey == jobs[id].inv.lockKey {
      ChildKeyInjective(parent, jobs[other].inv.parent.value);
    }
  }

  lemma FreshIsRight(limits: Retention.Limits, n: nat, retain: Option<int>)
    ensures SysInv(Fresh(limits, n, retain)) && AllDerivedRight(Fresh(limits, n, retain).kernel.store.jobs)
  {
    InitInv(limits, n);
  }
}
