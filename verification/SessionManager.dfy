/** The session manager and its store, updated in place; each method takes exactly the system's action. */
module SessionManagers {
  import opened Basics
  import opened Jobs
  import opened Kernel
  import opened Invariants
  import opened Executors
  import opened RunLists
  import opened Sessions
  import opened SessionProofs
  import opened Verdicts

  class SessionManager {
    const executor: CommandExecutor
    const retain: Option<int>
    var sessions: map<SessionId, Session>

    ghost function View(): System
      reads this, executor, executor.store
    {
      System(executor.View(), sessions, retain)
    }

    constructor (executor: CommandExecutor, retain: Option<int>)
      ensures this.executor == executor && View() == System(executor.View(), map[], retain)
    {
      this.executor := executor;
      this.retain := retain;
      sessions := map[];
    }

    method OpenSession(sid: SessionId, policy: Policy, now: Time)
      requires SysInv(View()) && sid !in sessions
      modifies this
      ensures SysInv(View()) && View() == After(old(View()), Act.OpenSession(sid, policy, now))
      ensures sessions == old(sessions)[sid := Session(Open, policy, now, [])]
    {
      AfterKeepsSysInv(View(), Act.OpenSession(sid, policy, now));
      hide SysInv;
      sessions := sessions[sid := Session(Open, policy, now, [])];
    }

    /** False stands for the KeyError of an unknown session. */
    method CloseSession(sid: SessionId, now: Time) returns (known: bool)
      requires SysInv(View())
      modifies this
      ensures SysInv(View()) && known == (sid in old(sessions))
      ensures View() == if known then After(old(View()), Act.CloseSession(sid, now)) else old(View())
      ensures known ==> sid in sessions && sessions[sid].status == Closed
      ensures known && old(sessions)[sid].status != Closed ==> sessions[sid].lastActivity == now
    {
      hide SysInv;
      if sid !in sessions {
        return false;
      }
      AfterKeepsSysInv(View(), Act.CloseSession(sid, now));
      known := true;
      if sessions[sid].status == Closed {
        return;
      }
      sessions := sessions[sid := sessions[sid].(status := Closed)];
      sessions := sessions[sid := sessions[sid].(lastActivity := now)];
      assert View() == After(old(View()), Act.CloseSession(sid, now));
    }

    /** gc: first collect the sessions idle for too long, then mark them expired. */
    method GcSessions(now: Time) returns (expired: set<SessionId>)
      requires SysInv(View())
      modifies this
      ensures SysInv(View()) && View() == After(old(View()), Act.GcSessions(now))
      ensures expired == set sid | sid in old(sessions) && IdleTooLong(old(sessions)[sid], now)
      ensures forall sid :: sid in old(sessions) ==>
                var was := old(sessions)[sid];
                && (sid in expired <==>
                      was.status == Open && was.policy.idleTtl.Some?
                      && now - was.lastActivity >= was.policy.idleTtl.value)
                && sid in sessions && sessions[sid] == if sid in expired then was.(status := Expired) else was
    {
      AfterKeepsSysInv(View(), Act.GcSessions(now));
      hide SysInv;
      expired := CollectIdle(sessions, now);
      MarkExpired(expired, now);
    }

    static method CollectIdle(sessions: map<SessionId, Session>, now: Time) returns (expired: set<SessionId>)
      ensures expired == set sid | sid in sessions && IdleTooLong(sessions[sid], now)
    {
      expired := {};
      var todo := sessions.Keys;
      while todo != {}
        invariant todo <= sessions.Keys
        invariant expired == set sid | sid in sessions && sid !in todo && IdleTooLong(sessions[sid], now)
        decreases |todo|
      {
        var sid :| sid in todo;
        todo := todo - {sid};
        if IdleTooLong(sessions[sid], now) {
          expired := expired + {sid};
        }
      }
    }

    method MarkExpired(expired: set<SessionId>, now: Time)
      requires expired == set sid | sid in sessions && IdleTooLong(sessions[sid], now)
      modifies this
      ensures sessions == Expire(old(sessions), now)
    {
      var todo := expired;
      while todo != {}
        invariant todo <= expired && sessions.Keys == old(sessions).Keys
        invariant forall sid :: sid in sessions ==>
                    sessions[sid] == if sid in expired - todo then old(sessions)[sid].(status := Expired)
                                     else old(sessions)[sid]
        decreases |todo|
      {
        var sid :| sid in todo;
        todo := todo - {sid};
        sessions := sessions[sid := sessions[sid].(status := Expired)];
      }
    }

    /** _assert_concurrency_limit. */
    method ExceedsLimit(session: Session, live: set<RunId>) returns (exceeds: bool)
      ensures exceeds == LimitReached(session, live)
    {
      if session.policy.maxConcurrent == None || session.policy.maxConcurrent.value <= 0 {
        return false;
      }
      exceeds := ReachesLimit(session.runIds, live, session.policy.maxConcurrent.value);
    }

    /** submit_command / submit_callable from inside the handler at worker w, or from outside. */
    method SubmitRun(
      sid: SessionId, w: Option<Worker>, req: Request, outside: Option<string>, id: RunId, now: Time)
      returns (verdict: Verdict)
      requires SysInv(View()) && Can(View(), SessionSubmit(sid, w, req, outside, id, now))
      modifies this, executor, executor.store
      ensures SysInv(View()) && View() == After(old(View()), SessionSubmit(sid, w, req, outside, id, now))
      ensures verdict == Decide(old(View()), sid, w, req, outside, id)
      ensures RefusedRightly(old(View()), sid, w, req, outside, verdict)
      ensures verdict.Accepted? ==>
                && sid in old(sessions) && CarriesRightly(old(View()), sid, w, req, outside, id, verdict.inv)
                && id in executor.store.jobs && executor.store.jobs[id].inv == verdict.inv
                && sid in sessions && EndsWith(sessions[sid].runIds, id)
      ensures sid in old(sessions) && old(sessions)[sid].status == Open ==>
                sid in sessions && sessions[sid].lastActivity == now
      ensures verdict.Refused? ==> executor.View() == old(executor.View())
    {
      hide RefusedRightly, CarriesRightly;
      DecidedRightly(View(), sid, w, req, outside, id) by { InvAndLists(View(), sid); }
      SubmissionShows(View(), sid, w, req, outside, id, now);
      SubmissionIsLatest(View(), sid, w, req, outside, id, now) by { InvAndLists(View(), sid); }
      InvAndLists(View(), sid);
      AfterKeepsSysInv(View(), SessionSubmit(sid, w, req, outside, id, now));
      hide SysInv, Inv, After, Decide;
      verdict := Perform(sid, w, req, outside, id, now);
    }

    method Perform(
      sid: SessionId, w: Option<Worker>, req: Request, outside: Option<string>, id: RunId, now: Time)
      returns (verdict: Verdict)
      requires Can(View(), SessionSubmit(sid, w, req, outside, id, now)) && Inv(executor.View())
      requires sid in sessions ==> NoDups(sessions[sid].runIds) && id !in sessions[sid].runIds
      modifies this, executor, executor.store
      ensures View() == After(old(View()), SessionSubmit(sid, w, req, outside, id, now))
      ensures verdict == Decide(old(View()), sid, w, req, outside, id)
    {
      AfterSubmission(View(), sid, w, req, outside, id, now);
      hide Inv, Next, Decide, After, LiveIds, Remember;
      verdict := Check(sid, w, req, outside, id, now);
      if verdict.Accepted? {
        SubmitAndRemember(sid, verdict.inv);
      }
    }

    /** The executor's submit, then add_run and _trim_runs. */
    method SubmitAndRemember(sid: SessionId, inv: Invocation)
      requires Inv(executor.View()) && inv.runId !in executor.store.jobs && sid in sessions
      requires NoDups(sessions[sid].runIds) && inv.runId !in sessions[sid].runIds
      modifies this, executor, executor.store
      ensures Inv(executor.View()) && executor.View() == Next(old(executor.View()), Submit(inv))
      ensures sessions == old(sessions)[sid :=
                Remember(old(sessions)[sid], inv.runId, LiveIds(executor.store.View()), retain)]
    {
      hide Inv, Next;
      executor.Submit(inv);
      sessions := sessions[sid := sessions[sid].(runIds := sessions[sid].runIds + [inv.runId])];
      var kept := TrimRuns(sessions[sid].runIds, LiveIds(executor.store.View()), retain);
      sessions := sessions[sid := sessions[sid].(runIds := kept)];
    }

    /** The checks of a submission, in order; the activity time is touched once the session is known to be open. */
    method Check(sid: SessionId, w: Option<Worker>, req: Request, outside: Option<string>, id: RunId, now: Time)
      returns (verdict: Verdict)
      requires w.Some? ==> IsExecuting(executor.workers, w.value)
      modifies this`sessions
      ensures verdict == Decide(old(View()), sid, w, req, outside, id)
      ensures (sid in old(sessions) ==> NoDups(old(sessions)[sid].runIds)) ==>
                && RefusedRightly(old(View()), sid, w, req, outside, verdict)
                && (verdict.Accepted? ==> sid in old(sessions)
                                          && CarriesRightly(old(View()), sid, w, req, outside, id, verdict.inv))
      ensures sessions == if verdict in {Refused(SessionMissing), Refused(SessionNotOpen)} then old(sessions)
                          else old(sessions)[sid := old(sessions)[sid].(lastActivity := now)]
    {
      hide RefusedRightly, CarriesRightly;
      if sid in sessions ==> NoDups(sessions[sid].runIds) {
        DecidedRightly(View(), sid, w, req, outside, id);
      }
      if sid !in sessions {
        return Refused(SessionMissing);
      }
      var session := sessions[sid];
      if session.status != Open {
        return Refused(SessionNotOpen);
      }
      sessions := sessions[sid := session.(lastActivity := now)];
      var parent := if w.Some? then Some(executor.workers[w.value].item) else None;
      var ambient := if w.Some? then Some(executor.workers[w.value].item.source) else outside;
      var origin := OriginSource(parent, ambient);
      if origin == "rpc" {
        return Refused(RpcContext);
      }
      if parent.Some? && req.awaitResult && |executor.workers| < 2 {
        return Refused(TooFewWorkers);
      }
      var exceeds := ExceedsLimit(session, LiveIds(executor.store.View()));
      if exceeds {
        return Refused(LimitExceeded);
      }
      var key := ResolveLockKey(req.lockKey, sid, session.policy.mode, CurrentId(parent));
      if MayDeadlock(parent, key, req.awaitResult) {
        return Refused(NestedSameKey);
      }
      var timeoutMs := if req.timeoutMs.Some? then req.timeoutMs else session.policy.timeoutMs;
      return Accepted(Invocation(id, key, Some(sid), CurrentId(parent), ResolveDepth(parent),
                                 SubmitSource(origin, ambient), Some(origin), timeoutMs));
    }
  }

  lemma SubmissionShows(
    sys: System, sid: SessionId, w: Option<Worker>, req: Request, outside: Option<string>, id: RunId, now: Time)
    requires Can(sys, SessionSubmit(sid, w, req, outside, id, now))
    ensures var verdict := Decide(sys, sid, w, req, outside, id);
            var jobs := After(sys, SessionSubmit(sid, w, req, outside, id, now)).kernel.store.jobs;
            && (verdict.Refused? ==>
                  After(sys, SessionSubmit(sid, w, req, outside, id, now)).kernel == sys.kernel)
            && (verdict.Accepted? ==> id in jobs && jobs[id].inv == verdict.inv)
  {
    hide Next, Decide;
    AfterSubmission(sys, sid, w, req, outside, id, now);
    var verdict := Decide(sys, sid, w, req, outside, id);
    if verdict.Accepted? { SubmittedIsNew(sys.kernel, verdict.inv); }
  }

  predicate EndsWith(ids: seq<RunId>, id: RunId) {
    ids != [] && ids[|ids| - 1] == id
  }

  /** An accepted run is the latest in its session's list; an open session's activity time is that of the call. */
  lemma SubmissionIsLatest(
    sys: System, sid: SessionId, w: Option<Worker>, req: Request, outside: Option<string>, id: RunId, now: Time)
    requires Can(sys, SessionSubmit(sid, w, req, outside, id, now)) && Inv(sys.kernel)
    ensures var t := After(sys, SessionSubmit(sid, w, req, outside, id, now));
            && (Decide(sys, sid, w, req, outside, id).Accepted? ==>
                  sid in t.sessions && EndsWith(t.sessions[sid].runIds, id))
            && (sid in sys.sessions && sys.sessions[sid].status == Open ==>
                  sid in t.sessions && t.sessions[sid].lastActivity == now)
  {
    hide Inv, Next, LiveIds, Decide, After, DropInactive;
    AfterSubmission(sys, sid, w, req, outside, id, now);
    if sid in sys.sessions && sys.sessions[sid].status == Open {
      OpenIsNotRefusedAsClosed(sys, sid, w, req, outside, id);
    }
    var verdict := Decide(sys, sid, w, req, outside, id);
    if verdict.Accepted? {
      SubmitFacts(sys.kernel, verdict.inv);
      var live := LiveIds(Next(sys.kernel, Submit(verdict.inv)).store);
      var ids := sys.sessions[sid].runIds + [id];
      if sys.retain.Some? && 0 <= sys.retain.value < |ids| {
        DropInactiveKeepsLast(sys.sessions[sid].runIds, id, live, |ids| - sys.retain.value);
      }
    }
  }

  lemma OpenIsNotRefusedAsClosed(
    sys: System, sid: SessionId, w: Option<Worker>, req: Request, outside: Option<string>, id: RunId)
    requires w.Some? ==> IsExecuting(sys.kernel.workers, w.value)
    requires sid in sys.sessions && sys.sessions[sid].status == Open
    ensures Decide(sys, sid, w, req, outside, id) !in {Refused(SessionMissing), Refused(SessionNotOpen)}
  {
    hide LimitReached, MayDeadlock;
  }

  lemma InvAndLists(sys: System, sid: SessionId)
    requires SysInv(sys)
    ensures Inv(sys.kernel)
    ensures sid in sys.sessions ==>
              NoDups(sys.sessions[sid].runIds)
              && forall id :: id !in sys.kernel.store.jobs ==> id !in sys.sessions[sid].runIds
  {
    if sid in sys.sessions {
      assert ListRight(sys.kernel.store.jobs, sid, sys.sessions[sid].runIds);
    }
    hide Inv;
  }
}
