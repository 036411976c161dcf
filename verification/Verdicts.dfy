/** Which submissions through a session are refused, for what reason, and what the accepted ones carry. */
module Verdicts {
  import opened Basics
  import opened Jobs
  import opened Kernel
  import opened Invariants
  import opened Safety
  import opened Deadlock
  import opened RunLists
  import opened Sessions
  import opened SessionProofs
  import opened SessionKernel
  import Retention

  /** The run in whose handler a submission is made; a submission from outside has none. */
  function Outer(sys: System, w: Option<Worker>): Invocation
    requires w.Some? && IsExecuting(sys.kernel.workers, w.value)
  {
    sys.kernel.workers[w.value].item
  }

  /** The chain of runs started from RPC, or the submission itself comes from there. */
  predicate FromRpc(sys: System, w: Option<Worker>, outside: Option<string>)
    requires w.Some? ==> IsExecuting(sys.kernel.workers, w.value)
  {
    if w.None? then outside == Some("rpc")
    else
      || Outer(sys, w).origin == Some("rpc")
      || (Outer(sys, w).origin in {None, Some("")} && Outer(sys, w).source == "rpc")
  }

  predicate LacksWorkers(sys: System, w: Option<Worker>, req: Request) {
    w.Some? && req.awaitResult && |sys.kernel.workers| < 2
  }

  ghost function ActiveListed(sys: System, sid: SessionId): set<RunId>
    requires sid in sys.sessions
  {
    set id | id in sys.sessions[sid].runIds && id in sys.kernel.store.stored && id in sys.kernel.store.jobs
             && sys.kernel.store.jobs[id].status in {Pending, Running}
  }

  /** The session has a positive limit, and that many active runs. */
  ghost predicate Full(sys: System, sid: SessionId)
    requires sid in sys.sessions
  {
    var limit := sys.sessions[sid].policy.maxConcurrent;
    limit.Some? && limit.value > 0 && |ActiveListed(sys, sid)| >= limit.value
  }

  /** The key asked for, else one derived from the outer run, else the session's default. */
  function KeyFor(sys: System, sid: SessionId, w: Option<Worker>, req: Request): LockKey
    requires sid in sys.sessions && (w.Some? ==> IsExecuting(sys.kernel.workers, w.value))
  {
    if req.lockKey.Some? then req.lockKey.value
    else if w.Some? then "child:" + Outer(sys, w).runId
    else match sys.sessions[sid].policy.mode
      case PerSession => "session:" + sid
      case Global => "global"
      case NoLock => ""
  }

  /** It would await a run under the very key the outer run holds. */
  predicate TakesOuterKey(sys: System, sid: SessionId, w: Option<Worker>, req: Request)
    requires sid in sys.sessions && (w.Some? ==> IsExecuting(sys.kernel.workers, w.value))
  {
    w.Some? && req.awaitResult && Outer(sys, w).lockKey != "" && KeyFor(sys, sid, w, req) == Outer(sys, w).lockKey
  }

  /** Each refusal has its reason, and the earlier one comes first. */
  ghost predicate RefusedRightly(
    sys: System, sid: SessionId, w: Option<Worker>, req: Request, outside: Option<string>, verdict: Verdict)
    requires w.Some? ==> IsExecuting(sys.kernel.workers, w.value)
  {
    var known := sid in sys.sessions;
    var open := known && sys.sessions[sid].status == Open;
    var local := open && !FromRpc(sys, w, outside);
    var staffed := local && !LacksWorkers(sys, w, req);
    var room := staffed && !Full(sys, sid);
    && (verdict == Refused(SessionMissing) <==> !known)
    && (verdict == Refused(SessionNotOpen) <==> known && !open)
    && (verdict == Refused(RpcContext) <==> open && !local)
    && (verdict == Refused(TooFewWorkers) <==> local && !staffed)
    && (verdict == Refused(LimitExceeded) <==> staffed && !room)
    && (verdict == Refused(NestedSameKey) <==> room && TakesOuterKey(sys, sid, w, req))
    && (verdict.Accepted? <==> room && !TakesOuterKey(sys, sid, w, req))
  }

  /** An accepted run stands one level below the outer run, or at the top, with its key, timeout, source and origin. */
  ghost predicate CarriesRightly(
    sys: System, sid: SessionId, w: Option<Worker>, req: Request, outside: Option<string>, id: RunId, inv: Invocation)
    requires sid in sys.sessions && (w.Some? ==> IsExecuting(sys.kernel.workers, w.value))
  {
    && inv.runId == id && inv.session == Some(sid) && inv.lockKey == KeyFor(sys, sid, w, req)
    && inv.timeoutMs == (if req.timeoutMs.Some? then req.timeoutMs else sys.sessions[sid].policy.timeoutMs)
    && if w.Some?
       then && inv.parent == Some(Outer(sys, w).runId) && inv.depth == Outer(sys, w).depth + 1
            && inv.origin == (if Outer(sys, w).origin in {None, Some("")} then Some(Outer(sys, w).source)
                              else Outer(sys, w).origin)
            && (Outer(sys, w).source != "" ==> inv.source == Outer(sys, w).source)
            && (Outer(sys, w).source == "" ==>
                  inv.source == if inv.origin.value == "" then "internal" else inv.origin.value)
       else && inv.parent == None && inv.depth == 0 && inv.origin == Some(inv.source)
            && inv.source == if outside in {None, Some("")} then "internal" else outside.value
  }

  lemma DecidedRightly(sys: System, sid: SessionId, w: Option<Worker>, req: Request, outside: Option<string>, id: RunId)
    requires w.Some? ==> IsExecuting(sys.kernel.workers, w.value)
    requires sid in sys.sessions ==> NoDups(sys.sessions[sid].runIds)
    ensures var verdict := Decide(sys, sid, w, req, outside, id);
            && RefusedRightly(sys, sid, w, req, outside, verdict)
            && (verdict.Accepted? ==> sid in sys.sessions
                                      && CarriesRightly(sys, sid, w, req, outside, id, verdict.inv))
  {
    if sid in sys.sessions {
      FullIsLimit(sys, sid);
      RpcIsOrigin(sys, w, outside);
      hide LimitReached, Full;
    }
  }

  lemma RpcIsOrigin(sys: System, w: Option<Worker>, outside: Option<string>)
    requires w.Some? ==> IsExecuting(sys.kernel.workers, w.value)
    ensures OriginSource(ParentOf(sys, w), AmbientOf(sys, w, outside)) == "rpc" <==> FromRpc(sys, w, outside)
  {
  }

  lemma FullIsLimit(sys: System, sid: SessionId)
    requires sid in sys.sessions && NoDups(sys.sessions[sid].runIds)
    ensures LimitReached(sys.sessions[sid], LiveIds(sys.kernel.store)) <==> Full(sys, sid)
  {
    var ids, live := sys.sessions[sid].runIds, LiveIds(sys.kernel.store);
    LiveCountIsCardinality(ids, live);
    assert ActiveListed(sys, sid) == set x | x in ids && x in live;
  }

  // ---------------------------------------------------------------- over any run of actions

  /** A run keeps its invocation. */
  lemma AfterKeepsRun(sys: System, act: Act, id: RunId)
    requires SysInv(sys) && Can(sys, act) && id in sys.kernel.store.jobs
    ensures id in After(sys, act).kernel.store.jobs
    ensures After(sys, act).kernel.store.jobs[id].inv == sys.kernel.store.jobs[id].inv
  {
    hide SysInv, Inv, After, Next, Enabled, KernelAct, Can;
    InvOf(sys);
    KernelActIsStep(sys, act);
    match KernelAct(sys, act) {
      case None => {}
      case Some(a) => { NextEvolves(sys.kernel, a); }
    }
  }

  lemma {:induction false} ExecutedKeepsRun(sys: System, acts: seq<Act>, id: RunId)
    requires SysInv(sys) && Feasible(sys, acts) && id in sys.kernel.store.jobs
    ensures id in Executed(sys, acts).kernel.store.jobs
    ensures Executed(sys, acts).kernel.store.jobs[id].inv == sys.kernel.store.jobs[id].inv
    decreases |acts|
  {
    hide SysInv, After, Can;
    if acts != [] {
      AfterKeepsRun(sys, acts[0], id);
      AfterKeepsSysInv(sys, acts[0]);
      ExecutedKeepsRun(After(sys, acts[0]), acts[1..], id);
    }
  }

  lemma ListsHaveNoDups(sys: System, sid: SessionId)
    requires SysInv(sys) && sid in sys.sessions
    ensures NoDups(sys.sessions[sid].runIds)
  {
    hide Inv, Families, ActiveRemembered, AllBounded;
    assert ListRight(sys.kernel.store.jobs, sid, sys.sessions[sid].runIds);
  }

  lemma AcceptedOnlyAdds(sys: System, act: Act)
    requires SysInv(sys) && Can(sys, act) && act.SessionSubmit? && act.id in After(sys, act).kernel.store.jobs
    ensures var verdict := Decide(sys, act.sid, act.w, act.req, act.outside, act.id);
            && verdict.Accepted? && verdict.inv.runId == act.id
            && After(sys, act).kernel.store.jobs[act.id].inv == verdict.inv
  {
    hide SysInv, Next, Decide;
    AfterSubmission(sys, act.sid, act.w, act.req, act.outside, act.id, act.now);
    var verdict := Decide(sys, act.sid, act.w, act.req, act.outside, act.id);
    if verdict.Accepted? { SubmittedIsNew(sys.kernel, verdict.inv); }
  }

  lemma SubmittedIsNew(s: State, inv: Invocation)
    requires inv.runId !in s.store.jobs
    ensures inv.runId in Next(s, Submit(inv)).store.jobs && Next(s, Submit(inv)).store.jobs[inv.runId].inv == inv
  {
  }

  /**
   * In every execution, a run accepted through a session was submitted to an open session with room; if it was
   * submitted from a handler with awaitResult, there were two workers, and it never has its parent's non-empty key.
   */
  lemma AcceptedRunsObeyTheChecks(
    limits: Retention.Limits, n: nat, retain: Option<int>, before: seq<Act>, sys: System, act: Act, after: seq<Act>,
    end: System)
    requires ArisesBy(limits, n, retain, before, sys) && Can(sys, act) && act.SessionSubmit?
    requires act.id in After(sys, act).kernel.store.jobs
    requires Feasible(After(sys, act), after) && end == Executed(After(sys, act), after)
    ensures act.sid in sys.sessions && sys.sessions[act.sid].status == Open && !Full(sys, act.sid)
    ensures act.id in end.kernel.store.jobs && end.kernel.store.jobs[act.id].inv.session == Some(act.sid)
    ensures
      var jobs := end.kernel.store.jobs;
      act.w.Some? ==>
        && jobs[act.id].inv.parent == Some(sys.kernel.workers[act.w.value].item.runId)
        && jobs[act.id].inv.parent.value in jobs
        && (act.req.awaitResult ==>
              && |sys.kernel.workers| >= 2
              && (jobs[act.id].inv.lockKey == ""
                  || jobs[act.id].inv.lockKey != jobs[jobs[act.id].inv.parent.value].inv.lockKey))
  {
    hide SysInv, Inv, After, Decide, Feasible, Executed, Next, Full, FromRpc;
    assert Arises(sys);
    ArisesSysInv(sys);
    AfterKeepsSysInv(sys, act);
    AcceptedOnlyAdds(sys, act);
    if act.sid in sys.sessions { ListsHaveNoDups(sys, act.sid); }
    DecidedRightly(sys, act.sid, act.w, act.req, act.outside, act.id);
    ExecutedKeepsRun(After(sys, act), after, act.id);
    if act.w.Some? {
      InvOf(sys);
      ExecutingIsRunning(sys.kernel, act.w.value);
      var outer := Outer(sys, act.w).runId;
      AfterKeepsRun(sys, act, outer);
      ExecutedKeepsRun(After(sys, act), after, outer);
    }
  }
}
