/** The session bound, the family tree of runs, and the link from session submissions to the kernel's theorems. */
module SessionProofs {
  import opened Basics
  import opened Jobs
  import opened Kernel
  import opened Invariants
  import opened Actions
  import opened Safety
  import opened Deadlock
  import opened RunLists
  import opened Sessions

  /** A nested run is one level below a known parent that does not stem from RPC, and inherits its origin. */
  predicate Family(jobs: map<RunId, Job>, inv: Invocation) {
    match inv.parent
    case None => inv.depth == 0
    case Some(p) =>
      && p in jobs && inv.depth == jobs[p].inv.depth + 1
      && EffectiveOrigin(jobs[p].inv) != "rpc"
      && EffectiveOrigin(inv) == Or(EffectiveOrigin(jobs[p].inv), "internal")
  }

  ghost predicate Families(jobs: map<RunId, Job>) {
    forall id :: id in jobs ==> Family(jobs, jobs[id].inv)
  }

  ghost predicate ListRight(jobs: map<RunId, Job>, sid: SessionId, ids: seq<RunId>) {
    NoDups(ids) && forall i :: 0 <= i < |ids| ==> ids[i] in jobs && jobs[ids[i]].inv.session == Some(sid)
  }

  ghost predicate ListsRight(jobs: map<RunId, Job>, sessions: map<SessionId, Session>) {
    forall sid :: sid in sessions ==> ListRight(jobs, sid, sessions[sid].runIds)
  }

  predicate Remembered(sessions: map<SessionId, Session>, job: Job) {
    job.inv.session.Some? && job.status.Active() ==>
      job.inv.session.value in sessions && job.inv.runId in sessions[job.inv.session.value].runIds
  }

  /** Every active run submitted through a session is in that session's list. */
  ghost predicate ActiveRemembered(jobs: map<RunId, Job>, sessions: map<SessionId, Session>) {
    forall id :: id in jobs ==> Remembered(sessions, jobs[id])
  }

  /** With limit L > 0: at most L active ids, and with retention R >= 0 at most max(R, L) ids. */
  predicate SessionBounded(session: Session, live: set<RunId>, retain: Option<int>) {
    session.policy.maxConcurrent.Some? && session.policy.maxConcurrent.value > 0 ==>
      && LiveCount(session.runIds, live) <= session.policy.maxConcurrent.value
      && (retain.Some? && retain.value >= 0 ==>
            |session.runIds| <= Max(retain.value, session.policy.maxConcurrent.value))
  }

  ghost predicate AllBounded(sessions: map<SessionId, Session>, live: set<RunId>, retain: Option<int>) {
    forall sid :: sid in sessions ==> SessionBounded(sessions[sid], live, retain)
  }

  ghost predicate SysInv(sys: System) {
    && Inv(sys.kernel)
    && Families(sys.kernel.store.jobs)
    && ListsRight(sys.kernel.store.jobs, sys.sessions)
    && ActiveRemembered(sys.kernel.store.jobs, sys.sessions)
    && AllBounded(sys.sessions, LiveIds(sys.kernel.store), sys.retain)
  }

  // ---------------------------------------------------------------- kernel actions

  /** No run is created or revived. */
  ghost predicate Quiet(s: Store, t: Store) {
    && t.jobs.Keys == s.jobs.Keys
    && forall id :: id in s.jobs ==>
         && t.jobs[id].inv == s.jobs[id].inv
         && (t.jobs[id].status.Active() ==> s.jobs[id].status.Active())
  }

  lemma NonSubmitQuiet(s: State, a: Action)
    requires Inv(s) && Enabled(s, a) && !a.Submit?
    ensures Quiet(s.store, Next(s, a).store)
    ensures LiveIds(Next(s, a).store) <= LiveIds(s.store)
  {
    hide Inv, Next, LiveIds, Enabled;
    NextEvolves(s, a);
    NextDomain(s, a);
    NextKeepsInv(s, a);
    LiveIsActive(s);
    LiveIsActive(Next(s, a));
  }

  lemma LiveIsActive(s: State)
    requires Inv(s)
    ensures forall id :: id in LiveIds(s.store) <==> id in s.store.jobs && s.store.jobs[id].status.Active()
    ensures forall id :: id in s.store.jobs ==> s.store.jobs[id].inv.runId == id
  {
    hide JobOk, ItemsKnown, AwaitsKnown, PlacesRight, StatusesFit, LogRight, LocksMatch, Fifo;
  }

  lemma BoundedMonotone(
    sessions: map<SessionId, Session>, live: set<RunId>, live': set<RunId>, retain: Option<int>)
    requires AllBounded(sessions, live, retain) && live' <= live
    ensures AllBounded(sessions, live', retain)
  {
    forall sid | sid in sessions ensures SessionBounded(sessions[sid], live', retain) {
      assert SessionBounded(sessions[sid], live, retain);
      LiveCountMonotone(sessions[sid].runIds, live, live');
    }
  }

  lemma QuietKeepsLists(s: Store, t: Store, sessions: map<SessionId, Session>)
    requires Quiet(s, t) && Families(s.jobs) && ListsRight(s.jobs, sessions) && ActiveRemembered(s.jobs, sessions)
    ensures Families(t.jobs) && ListsRight(t.jobs, sessions) && ActiveRemembered(t.jobs, sessions)
  {
    forall id | id in t.jobs ensures Family(t.jobs, t.jobs[id].inv) && Remembered(sessions, t.jobs[id]) {
      assert Family(s.jobs, s.jobs[id].inv) && Remembered(sessions, s.jobs[id]);
    }
    forall sid | sid in sessions ensures ListRight(t.jobs, sid, sessions[sid].runIds) {
      assert ListRight(s.jobs, sid, sessions[sid].runIds);
    }
  }

  lemma StepKeepsSysInv(sys: System, a: Action)
    requires SysInv(sys) && Enabled(sys.kernel, a) && !a.Submit?
    ensures SysInv(sys.(kernel := Next(sys.kernel, a)))
  {
    NextKeepsInv(sys.kernel, a);
    NonSubmitQuiet(sys.kernel, a);
    hide Inv, Next, Quiet, Families, ListsRight, ActiveRemembered, AllBounded, LiveIds;
    QuietKeepsLists(sys.kernel.store, Next(sys.kernel, a).store, sys.sessions);
    BoundedMonotone(sys.sessions, LiveIds(sys.kernel.store), LiveIds(Next(sys.kernel, a).store), sys.retain);
  }

  // ---------------------------------------------------------------- submissions

  /** A submission adds one pending run and leaves the others alone. */
  lemma SubmitFacts(s: State, inv: Invocation)
    requires Inv(s) && inv.runId !in s.store.jobs
    ensures Inv(Next(s, Submit(inv)))
    ensures Next(s, Submit(inv)).store.jobs == s.store.jobs[inv.runId := NewJob(inv)]
    ensures LiveIds(Next(s, Submit(inv)).store) == LiveIds(s.store) + {inv.runId}
  {
    hide Inv;
    NextKeepsInv(s, Submit(inv));
  }

  lemma SubmitFamily(jobs: map<RunId, Job>, inv: Invocation)
    requires Families(jobs) && inv.runId !in jobs && Family(jobs, inv)
    ensures Families(jobs[inv.runId := NewJob(inv)])
  {
    var jobs' := jobs[inv.runId := NewJob(inv)];
    forall id | id in jobs' ensures Family(jobs', jobs'[id].inv) {
      if id in jobs { assert Family(jobs, jobs[id].inv); }
    }
  }

  /** A run in no list does not change what the lists say. */
  lemma ListsIgnoreNewRun(
    jobs: map<RunId, Job>, sessions: map<SessionId, Session>, inv: Invocation, live: set<RunId>, retain: Option<int>)
    requires ListsRight(jobs, sessions) && AllBounded(sessions, live, retain) && inv.runId !in jobs
    ensures ListsRight(jobs[inv.runId := NewJob(inv)], sessions) && AllBounded(sessions, live + {inv.runId}, retain)
  {
    var jobs' := jobs[inv.runId := NewJob(inv)];
    forall sid | sid in sessions
      ensures ListRight(jobs', sid, sessions[sid].runIds)
      ensures SessionBounded(sessions[sid], live + {inv.runId}, retain)
    {
      assert ListRight(jobs, sid, sessions[sid].runIds) && SessionBounded(sessions[sid], live, retain);
      LiveCountMonotone(sessions[sid].runIds, live, live + {inv.runId});
    }
  }

  lemma RootRemembered(jobs: map<RunId, Job>, sessions: map<SessionId, Session>, inv: Invocation)
    requires ActiveRemembered(jobs, sessions) && inv.session == None
    ensures ActiveRemembered(jobs[inv.runId := NewJob(inv)], sessions)
  {
    var jobs' := jobs[inv.runId := NewJob(inv)];
    forall id | id in jobs' ensures Remembered(sessions, jobs'[id]) {
      if id != inv.runId { assert Remembered(sessions, jobs[id]); }
    }
  }

  /** A direct root submission concerns no session. */
  lemma RootKeepsSysInv(sys: System, inv: Invocation)
    requires SysInv(sys) && inv.runId !in sys.kernel.store.jobs && DirectRoot(inv)
    ensures SysInv(sys.(kernel := Next(sys.kernel, Submit(inv))))
  {
    hide Inv, Next, Enabled, Families, ListsRight, ActiveRemembered, AllBounded, LiveIds;
    SubmitFacts(sys.kernel, inv);
    SubmitFamily(sys.kernel.store.jobs, inv);
    ListsIgnoreNewRun(sys.kernel.store.jobs, sys.sessions, inv, LiveIds(sys.kernel.store), sys.retain);
    RootRemembered(sys.kernel.store.jobs, sys.sessions, inv);
  }

  /** Trimming keeps every active entry, adds none, and leaves at most max(R, active) entries. */
  lemma TrimmedKeeps(ids: seq<RunId>, live: set<RunId>, retain: Option<int>)
    requires NoDups(ids)
    ensures var kept := Trimmed(ids, live, retain);
            && NoDups(kept) && LiveCount(kept, live) == LiveCount(ids, live)
            && (forall x :: x in kept ==> x in ids)
            && (forall x :: x in ids && x in live ==> x in kept)
            && (retain.Some? && retain.value >= 0 ==> |kept| <= Max(retain.value, LiveCount(ids, live)))
  {
    if retain.Some? && 0 <= retain.value < |ids| {
      DropInactiveKeepsOrder(ids, live, |ids| - retain.value);
      TrimmedSize(ids, live, retain.value);
    }
  }

  /** Appending a new active run. */
  lemma AppendedRun(jobs: map<RunId, Job>, sid: SessionId, ids: seq<RunId>, inv: Invocation, live: set<RunId>)
    requires ListRight(jobs, sid, ids) && inv.runId !in jobs && inv.session == Some(sid)
    ensures ListRight(jobs[inv.runId := NewJob(inv)], sid, ids + [inv.runId])
    ensures LiveCount(ids + [inv.runId], live + {inv.runId}) <= LiveCount(ids, live) + 1
    ensures inv.runId in ids + [inv.runId] && forall x :: x in ids ==> x in ids + [inv.runId]
  {
    var live' := live + {inv.runId};
    assert inv.runId !in ids;
    LiveCountAppend(ids, [inv.runId], live');
    assert LiveCount([inv.runId], live') == 1;
    LiveCountMonotone(ids, live, live');
    assert (ids + [inv.runId])[|ids|] == inv.runId;
  }

  lemma SublistRight(jobs: map<RunId, Job>, sid: SessionId, ids: seq<RunId>, kept: seq<RunId>)
    requires ListRight(jobs, sid, ids) && NoDups(kept) && forall x :: x in kept ==> x in ids
    ensures ListRight(jobs, sid, kept)
  {
    forall i | 0 <= i < |kept| ensures kept[i] in jobs && jobs[kept[i]].inv.session == Some(sid) {
      assert kept[i] in ids;
    }
  }

  lemma ListHasNoDups(jobs: map<RunId, Job>, sid: SessionId, ids: seq<RunId>)
    requires ListRight(jobs, sid, ids)
    ensures NoDups(ids)
  {
  }

  /** What remembering one more active run does to a session within its limit. */
  lemma RememberOne(
    jobs: map<RunId, Job>, sid: SessionId, session: Session, inv: Invocation, live: set<RunId>, retain: Option<int>)
    requires ListRight(jobs, sid, session.runIds) && inv.runId !in jobs && inv.session == Some(sid)
    requires !LimitReached(session, live) && SessionBounded(session, live, retain)
    ensures var live' := live + {inv.runId};
            var session' := Remember(session, inv.runId, live', retain);
            && ListRight(jobs[inv.runId := NewJob(inv)], sid, session'.runIds)
            && SessionBounded(session', live', retain)
            && inv.runId in session'.runIds
            && (forall x :: x in session.runIds && x in live ==> x in session'.runIds)
  {
    hide ListRight, NoDups, Trimmed, LiveCount;
    var live' := live + {inv.runId};
    var ids := session.runIds + [inv.runId];
    AppendedRun(jobs, sid, session.runIds, inv, live);
    ListHasNoDups(jobs[inv.runId := NewJob(inv)], sid, ids);
    TrimmedKeeps(ids, live', retain);
    SublistRight(jobs[inv.runId := NewJob(inv)], sid, ids, Trimmed(ids, live', retain));
  }

  /** Every accepted submission is a proper member of its parent's family. */
  lemma AcceptedFits(
    sys: System, sid: SessionId, w: Option<Worker>, req: Request, outside: Option<string>, id: RunId)
    requires SysInv(sys) && (w.Some? ==> IsExecuting(sys.kernel.workers, w.value))
    requires Decide(sys, sid, w, req, outside, id).Accepted?
    ensures var inv := Decide(sys, sid, w, req, outside, id).inv;
            && inv.runId == id && inv.session == Some(sid) && Family(sys.kernel.store.jobs, inv)
            && !LimitReached(sys.sessions[sid], LiveIds(sys.kernel.store))
  {
    if w.Some? {
      ExecutingIsRunning(sys.kernel, w.value);
      hide Inv, Families, ListsRight, ActiveRemembered, AllBounded, LimitReached;
    }
  }

  lemma AcceptKeepsSysInv(sys: System, sid: SessionId, inv: Invocation, now: Time)
    requires SysInv(sys) && sid in sys.sessions && inv.runId !in sys.kernel.store.jobs
    requires inv.session == Some(sid) && Family(sys.kernel.store.jobs, inv)
    requires !LimitReached(sys.sessions[sid], LiveIds(sys.kernel.store))
    ensures var kernel := Next(sys.kernel, Submit(inv));
            var touched := sys.sessions[sid].(lastActivity := now);
            SysInv(sys.(kernel := kernel,
                        sessions := sys.sessions[sid :=
                          Remember(touched, inv.runId, LiveIds(kernel.store), sys.retain)]))
  {
    hide Inv, Next, Enabled, Families, LiveIds;
    var jobs, live := sys.kernel.store.jobs, LiveIds(sys.kernel.store);
    var touched := sys.sessions[sid].(lastActivity := now);
    assert ListRight(jobs, sid, touched.runIds);
    assert SessionBounded(sys.sessions[sid], live, sys.retain) && SessionBounded(touched, live, sys.retain);
    LiveIsActive(sys.kernel);
    hide ListsRight, ActiveRemembered, AllBounded, ListRight, SessionBounded, LimitReached, Family;
    SubmitFacts(sys.kernel, inv);
    SubmitFamily(jobs, inv);
    assert !LimitReached(touched, live) by { SameLimit(sys.sessions[sid], touched, live); }
    RememberOne(jobs, sid, touched, inv, live, sys.retain);
    hide RunLists.Trimmed;
    SessionGrows(jobs, sys.sessions, Remember(touched, inv.runId, live + {inv.runId}, sys.retain),
                 sid, inv, live, sys.retain);
  }

  lemma SameLimit(a: Session, b: Session, live: set<RunId>)
    requires a.policy == b.policy && a.runIds == b.runIds
    ensures LimitReached(a, live) == LimitReached(b, live)
  {
  }

  /** One session's list takes up a new run, keeping its active ones; the other sessions stay as they are. */
  lemma SessionGrows(
    jobs: map<RunId, Job>, sessions: map<SessionId, Session>, grown: Session,
    sid: SessionId, inv: Invocation, live: set<RunId>, retain: Option<int>)
    requires ListsRight(jobs, sessions) && AllBounded(sessions, live, retain) && ActiveRemembered(jobs, sessions)
    requires sid in sessions && inv.runId !in jobs && inv.session == Some(sid)
    requires ListRight(jobs[inv.runId := NewJob(inv)], sid, grown.runIds)
    requires SessionBounded(grown, live + {inv.runId}, retain) && inv.runId in grown.runIds
    requires forall x :: x in sessions[sid].runIds && x in live ==> x in grown.runIds
    requires forall id :: id in jobs ==> jobs[id].inv.runId == id
    requires forall id :: id in jobs && jobs[id].status.Active() ==> id in live
    ensures ListsRight(jobs[inv.runId := NewJob(inv)], sessions[sid := grown])
    ensures AllBounded(sessions[sid := grown], live + {inv.runId}, retain)
    ensures ActiveRemembered(jobs[inv.runId := NewJob(inv)], sessions[sid := grown])
  {
    var jobs', sessions' := jobs[inv.runId := NewJob(inv)], sessions[sid := grown];
    ListsIgnoreNewRun(jobs, sessions, inv, live, retain);
    forall x | x in sessions'
      ensures ListRight(jobs', x, sessions'[x].runIds) && SessionBounded(sessions'[x], live + {inv.runId}, retain)
    {
      if x != sid {
        assert ListRight(jobs', x, sessions[x].runIds) && SessionBounded(sessions[x], live + {inv.runId}, retain);
      }
    }
    hide ListRight, SessionBounded;
    forall id | id in jobs' ensures Remembered(sessions', jobs'[id]) {
      if id != inv.runId { assert Remembered(sessions, jobs[id]); }
    }
  }

  // ---------------------------------------------------------------- session records

  /** Changing only statuses and activity times keeps the invariant. */
  lemma RecordsKeepSysInv(sys: System, sessions': map<SessionId, Session>)
    requires SysInv(sys) && sessions'.Keys == sys.sessions.Keys
    requires forall sid :: sid in sys.sessions ==>
               sessions'[sid].runIds == sys.sessions[sid].runIds && sessions'[sid].policy == sys.sessions[sid].policy
    ensures SysInv(sys.(sessions := sessions'))
  {
    hide Inv, Families, LiveIds;
    forall sid | sid in sessions'
      ensures ListRight(sys.kernel.store.jobs, sid, sessions'[sid].runIds)
      ensures SessionBounded(sessions'[sid], LiveIds(sys.kernel.store), sys.retain)
    {
      assert ListRight(sys.kernel.store.jobs, sid, sys.sessions[sid].runIds);
      assert SessionBounded(sys.sessions[sid], LiveIds(sys.kernel.store), sys.retain);
    }
    forall id | id in sys.kernel.store.jobs ensures Remembered(sessions', sys.kernel.store.jobs[id]) {
      assert Remembered(sys.sessions, sys.kernel.store.jobs[id]);
    }
  }

  lemma OpenKeepsSysInv(sys: System, sid: SessionId, policy: Policy, now: Time)
    requires SysInv(sys) && sid !in sys.sessions
    ensures SysInv(sys.(sessions := sys.sessions[sid := Session(Open, policy, now, [])]))
  {
    hide Inv, Families, LiveIds;
    var sessions' := sys.sessions[sid := Session(Open, policy, now, [])];
    forall id | id in sys.kernel.store.jobs ensures Remembered(sessions', sys.kernel.store.jobs[id]) {
      assert Remembered(sys.sessions, sys.kernel.store.jobs[id]);
    }
  }

  /** The effect of a submission, by its verdict. */
  lemma AfterSubmission(
    sys: System, sid: SessionId, w: Option<Worker>, req: Request, outside: Option<string>, id: RunId, now: Time)
    requires Can(sys, SessionSubmit(sid, w, req, outside, id, now))
    ensures var t := After(sys, SessionSubmit(sid, w, req, outside, id, now));
            match Decide(sys, sid, w, req, outside, id)
            case Refused(why) =>
              if why == SessionMissing || why == SessionNotOpen then t == sys
              else sid in sys.sessions
                   && t == sys.(sessions := sys.sessions[sid := sys.sessions[sid].(lastActivity := now)])
            case Accepted(inv) =>
              && sid in sys.sessions && inv.runId == id
              && t.kernel == Next(sys.kernel, Submit(inv)) && t.retain == sys.retain
              && t.sessions == sys.sessions[sid :=
                   Remember(sys.sessions[sid].(lastActivity := now), id, LiveIds(t.kernel.store), sys.retain)]
  {
    hide Next, LiveIds, LimitReached;
  }

  lemma SessionSubmitKeepsSysInv(
    sys: System, sid: SessionId, w: Option<Worker>, req: Request, outside: Option<string>, id: RunId, now: Time)
    requires SysInv(sys) && Can(sys, SessionSubmit(sid, w, req, outside, id, now))
    ensures SysInv(After(sys, SessionSubmit(sid, w, req, outside, id, now)))
  {
    hide SysInv, Inv, Next, LiveIds;
    var verdict := Decide(sys, sid, w, req, outside, id);
    if verdict.Accepted? {
      AcceptedFits(sys, sid, w, req, outside, id);
      AcceptKeepsSysInv(sys, sid, verdict.inv, now);
      AfterSubmission(sys, sid, w, req, outside, id, now);
    } else if sid in sys.sessions {
      RecordsKeepSysInv(sys, Touch(sys, sid, now).sessions);
    }
  }

  lemma AfterKeepsSysInv(sys: System, act: Act)
    requires SysInv(sys) && Can(sys, act)
    ensures SysInv(After(sys, act))
  {
    hide SysInv, Inv, Next, LiveIds;
    match act
    case Step(a) =>
      if a.Submit? { RootKeepsSysInv(sys, a.inv); } else { StepKeepsSysInv(sys, a); }
    case SessionSubmit(sid, w, req, outside, id, now) =>
      SessionSubmitKeepsSysInv(sys, sid, w, req, outside, id, now);
    case OpenSession(sid, policy, now) => OpenKeepsSysInv(sys, sid, policy, now);
    case CloseSession(sid, now) => RecordsKeepSysInv(sys, After(sys, act).sessions);
    case GcSessions(now) => RecordsKeepSysInv(sys, Expire(sys.sessions, now));
  }

  lemma {:induction false} ExecutedKeepsSysInv(sys: System, acts: seq<Act>)
    requires SysInv(sys) && Feasible(sys, acts)
    ensures SysInv(Executed(sys, acts))
    decreases |acts|
  {
    if acts != [] {
      AfterKeepsSysInv(sys, acts[0]);
      hide SysInv, After;
      ExecutedKeepsSysInv(After(sys, acts[0]), acts[1..]);
    }
  }

  lemma ArisesSysInv(sys: System)
    requires Arises(sys)
    ensures SysInv(sys)
  {
    var limits, n, retain, acts :| ArisesBy(limits, n, retain, acts, sys);
    InitInv(limits, n);
    assert SysInv(Fresh(limits, n, retain));
    hide SysInv;
    ExecutedKeepsSysInv(Fresh(limits, n, retain), acts);
  }

  // ---------------------------------------------------------------- main results

  /** The runs of a session that are pending or running. */
  ghost function ActiveRuns(sys: System, sid: SessionId): set<RunId> {
    set id | id in sys.kernel.store.jobs && sys.kernel.store.jobs[id].inv.session == Some(sid)
             && sys.kernel.store.jobs[id].status.Active()
  }

  /**
   * Every active run of a session is in its list; with a limit L > 0 there are at most L of them, and with a
   * retention R >= 0 the list is no longer than max(R, L).
   */
  lemma SessionBound(sys: System, sid: SessionId)
    requires Arises(sys) && sid in sys.sessions
    ensures forall id :: id in ActiveRuns(sys, sid) ==> id in sys.sessions[sid].runIds
    ensures sys.sessions[sid].policy.maxConcurrent.Some? && sys.sessions[sid].policy.maxConcurrent.value > 0 ==>
              && |ActiveRuns(sys, sid)| <= sys.sessions[sid].policy.maxConcurrent.value
              && (sys.retain.Some? && sys.retain.value >= 0 ==>
                    |sys.sessions[sid].runIds| <= Max(sys.retain.value, sys.sessions[sid].policy.maxConcurrent.value))
  {
    hide Arises, Inv, Families, LiveIds;
    ArisesSysInv(sys);
    var jobs := sys.kernel.store.jobs;
    var ids := sys.sessions[sid].runIds;
    var live := LiveIds(sys.kernel.store);
    LiveIsActive(sys.kernel);
    assert ListRight(jobs, sid, ids);
    assert SessionBounded(sys.sessions[sid], live, sys.retain);
    forall id | id in ActiveRuns(sys, sid) ensures id in ids {
      assert Remembered(sys.sessions, jobs[id]);
    }
    assert ActiveRuns(sys, sid) == set x | x in ids && x in live;
    LiveCountIsCardinality(ids, live);
  }

  lemma {:induction false} LiveCountIsCardinality(ids: seq<RunId>, live: set<RunId>)
    requires NoDups(ids)
    ensures LiveCount(ids, live) == |set x | x in ids && x in live|
  {
    if ids == [] {
      assert (set x | x in ids && x in live) == {};
    } else {
      LiveCountIsCardinality(ids[1..], live);
      assert ids[0] !in ids[1..];
      var rest := set x | x in ids[1..] && x in live;
      assert (set x | x in ids && x in live) == if ids[0] in live then rest + {ids[0]} else rest;
    }
  }

  /** The ancestors of a run, itself first; parents being stored makes the chain end. */
  ghost function Ancestry(jobs: map<RunId, Job>, id: RunId): seq<RunId>
    requires Families(jobs) && id in jobs
    decreases jobs[id].inv.depth
  {
    assert Family(jobs, jobs[id].inv);
    if jobs[id].inv.parent.None? then [id] else [id] + Ancestry(jobs, jobs[id].inv.parent.value)
  }

  lemma {:induction false} AncestryShape(jobs: map<RunId, Job>, id: RunId)
    requires Families(jobs) && id in jobs
    ensures var chain := Ancestry(jobs, id);
            && |chain| == jobs[id].inv.depth + 1
            && (forall i :: 0 <= i < |chain| ==> chain[i] in jobs && jobs[chain[i]].inv.depth == |chain| - 1 - i)
            && jobs[chain[|chain| - 1]].inv.parent == None
    decreases jobs[id].inv.depth
  {
    assert Family(jobs, jobs[id].inv);
    hide EffectiveOrigin;
    if jobs[id].inv.parent.Some? {
      var rest := Ancestry(jobs, jobs[id].inv.parent.value);
      AncestryShape(jobs, jobs[id].inv.parent.value);
      hide Families, Family;
      var chain := Ancestry(jobs, id);
      assert chain == [id] + rest;
      forall i | 0 <= i < |chain| ensures chain[i] in jobs && jobs[chain[i]].inv.depth == |chain| - 1 - i {
        if i > 0 { assert chain[i] == rest[i - 1]; }
      }
      assert chain[|chain| - 1] == rest[|rest| - 1];
    }
  }

  lemma FamilyOf(jobs: map<RunId, Job>, id: RunId)
    requires Families(jobs) && id in jobs
    ensures Family(jobs, jobs[id].inv)
  {
  }

  lemma {:induction false} AncestryOrigin(jobs: map<RunId, Job>, id: RunId)
    requires Families(jobs) && id in jobs && jobs[id].inv.depth > 0
    ensures Ancestry(jobs, id)[|Ancestry(jobs, id)| - 1] in jobs
    ensures var root := Ancestry(jobs, id)[|Ancestry(jobs, id)| - 1];
            EffectiveOrigin(jobs[id].inv) == Or(EffectiveOrigin(jobs[root].inv), "internal")
    decreases jobs[id].inv.depth
  {
    hide EffectiveOrigin, Families;
    AncestryShape(jobs, id);
    FamilyOf(jobs, id);
    var parent := jobs[id].inv.parent.value;
    var rest := Ancestry(jobs, parent);
    assert Ancestry(jobs, id) == [id] + rest;
    if jobs[parent].inv.depth > 0 {
      AncestryOrigin(jobs, parent);
    } else {
      FamilyOf(jobs, parent);
      AncestryShape(jobs, parent);
    }
  }

  /**
   * Parent links form a forest: a run's depth is the length of its chain of ancestors, depths fall by one along it,
   * the origin of the chain is that of its root, and no run that stems from RPC has a child.
   */
  lemma RunsFormForest(sys: System, id: RunId)
    requires Arises(sys) && id in sys.kernel.store.jobs
    ensures Families(sys.kernel.store.jobs)
    ensures var jobs, chain := sys.kernel.store.jobs, Ancestry(sys.kernel.store.jobs, id);
            && |chain| == jobs[id].inv.depth + 1 && NoDups(chain)
            && (forall i :: 0 <= i < |chain| ==> chain[i] in jobs)
            && jobs[chain[|chain| - 1]].inv.parent == None
            && (jobs[id].inv.depth > 0 ==>
                  EffectiveOrigin(jobs[id].inv) == Or(EffectiveOrigin(jobs[chain[|chain| - 1]].inv), "internal"))
    ensures forall c :: c in sys.kernel.store.jobs && sys.kernel.store.jobs[c].inv.parent == Some(id) ==>
              EffectiveOrigin(sys.kernel.store.jobs[id].inv) != "rpc"
  {
    hide Arises, Inv, ListsRight, ActiveRemembered, AllBounded, Families, EffectiveOrigin;
    ArisesSysInv(sys);
    var jobs := sys.kernel.store.jobs;
    AncestryShape(jobs, id);
    AncestryNoDups(jobs, id);
    if jobs[id].inv.depth > 0 { AncestryOrigin(jobs, id); }
    forall c | c in jobs && jobs[c].inv.parent == Some(id) ensures EffectiveOrigin(jobs[id].inv) != "rpc" {
      FamilyOf(jobs, c);
    }
  }

  lemma AncestryNoDups(jobs: map<RunId, Job>, id: RunId)
    requires Families(jobs) && id in jobs
    ensures NoDups(Ancestry(jobs, id))
  {
    hide Families;
    AncestryShape(jobs, id);
    var chain := Ancestry(jobs, id);
    forall i, j | 0 <= i < j < |chain| ensures chain[i] != chain[j] {
      assert jobs[chain[i]].inv.depth != jobs[chain[j]].inv.depth;
    }
  }
}
