/**
 * Sessions on top of the kernel: who may submit, under which parent, depth, origin and lock key, how many runs a
 * session may have active, and which run ids it remembers.
 */
module Sessions {
  import opened Basics
  import opened Jobs
  import opened Kernel
  import opened Deadlock
  import opened RunLists
  import Retention

  datatype SessionStatus = Open | Closed | Expired

  datatype LockMode = PerSession | Global | NoLock

  datatype Policy = Policy(mode: LockMode, maxConcurrent: Option<int>, timeoutMs: Option<int>, idleTtl: Option<Time>)

  datatype Session = Session(status: SessionStatus, policy: Policy, lastActivity: Time, runIds: seq<RunId>)

  /** `retain` is the store's retain_last_n. */
  datatype System = System(kernel: State, sessions: map<SessionId, Session>, retain: Option<int>)

  datatype Refusal =
    | SessionMissing | SessionNotOpen | RpcContext | TooFewWorkers | LimitExceeded | NestedSameKey

  datatype Verdict = Accepted(inv: Invocation) | Refused(why: Refusal)

  datatype Request = Request(lockKey: Option<LockKey>, timeoutMs: Option<int>, awaitResult: bool)

  // ---------------------------------------------------------------- resolving a submission

  /** Python's `a or b` on strings. */
  function Or(a: string, b: string): string {
    if a != "" then a else b
  }

  /** Where a chain of runs started: its origin_source if that is set, else its source. */
  function EffectiveOrigin(inv: Invocation): string {
    if inv.origin.Some? && inv.origin.value != "" then inv.origin.value else inv.source
  }

  function OriginSource(parent: Option<Invocation>, ambient: Option<string>): string {
    match parent
    case Some(p) => EffectiveOrigin(p)
    case None => if ambient.Some? then Or(ambient.value, "internal") else "internal"
  }

  function SubmitSource(origin: string, ambient: Option<string>): string {
    if ambient.Some? then Or(ambient.value, Or(origin, "internal")) else Or(origin, "internal")
  }

  function ResolveDepth(parent: Option<Invocation>): nat {
    match parent
    case Some(p) => p.depth + 1
    case None => 0
  }

  const SESSION_PREFIX := "session:"

  function ResolveLockKey(asked: Option<LockKey>, sid: SessionId, mode: LockMode, current: Option<RunId>): LockKey {
    match (asked, current)
    case (Some(k), _) => k
    case (None, Some(id)) => ChildKey(id)
    case (None, None) =>
      match mode
      case PerSession => SESSION_PREFIX + sid
      case Global => "global"
      case NoLock => ""
  }

  /** _detect_nested_deadlock: an awaited child may not ask for its parent's own non-empty key. */
  predicate MayDeadlock(parent: Option<Invocation>, key: LockKey, awaitResult: bool) {
    awaitResult && parent.Some? && parent.value.lockKey != "" && key != "" && key == parent.value.lockKey
  }

  function LiveIds(s: Store): set<RunId> {
    set id | id in s.stored && id in s.jobs && s.jobs[id].status.Active()
  }

  predicate LimitReached(session: Session, live: set<RunId>) {
    && session.policy.maxConcurrent.Some? && session.policy.maxConcurrent.value > 0
    && LiveCount(session.runIds, live) >= session.policy.maxConcurrent.value
  }

  /** The run in whose handler a nested submission happens. */
  function ParentOf(sys: System, w: Option<Worker>): Option<Invocation>
    requires w.Some? ==> IsExecuting(sys.kernel.workers, w.value)
  {
    if w.Some? then Some(sys.kernel.workers[w.value].item) else None
  }

  /** Inside a handler the ambient source is the run's own. */
  function AmbientOf(sys: System, w: Option<Worker>, outside: Option<string>): Option<string>
    requires w.Some? ==> IsExecuting(sys.kernel.workers, w.value)
  {
    if w.Some? then Some(sys.kernel.workers[w.value].item.source) else outside
  }

  function CurrentId(parent: Option<Invocation>): Option<RunId> {
    if parent.Some? then Some(parent.value.runId) else None
  }

  /** submit_command / submit_callable up to the executor's submit: every check, in order. */
  function Decide(sys: System, sid: SessionId, w: Option<Worker>, req: Request, outside: Option<string>, id: RunId)
    : Verdict
    requires w.Some? ==> IsExecuting(sys.kernel.workers, w.value)
  {
    if sid !in sys.sessions then Refused(SessionMissing)
    else
      var session := sys.sessions[sid];
      var parent := ParentOf(sys, w);
      var ambient := AmbientOf(sys, w, outside);
      var origin := OriginSource(parent, ambient);
      var key := ResolveLockKey(req.lockKey, sid, session.policy.mode, CurrentId(parent));
      if session.status != Open then Refused(SessionNotOpen)
      else if origin == "rpc" then Refused(RpcContext)
      else if parent.Some? && req.awaitResult && |sys.kernel.workers| < 2 then Refused(TooFewWorkers)
      else if LimitReached(session, LiveIds(sys.kernel.store)) then Refused(LimitExceeded)
      else if MayDeadlock(parent, key, req.awaitResult) then Refused(NestedSameKey)
      else Accepted(Invocation(
        id, key, Some(sid), CurrentId(parent), ResolveDepth(parent), SubmitSource(origin, ambient), Some(origin),
        if req.timeoutMs.Some? then req.timeoutMs else session.policy.timeoutMs))
  }

  // ---------------------------------------------------------------- actions

  datatype Act =
    | Step(a: Action)
    | SessionSubmit(sid: SessionId, w: Option<Worker>, req: Request, outside: Option<string>, id: RunId, now: Time)
    | OpenSession(sid: SessionId, policy: Policy, now: Time)
    | CloseSession(sid: SessionId, now: Time)
    | GcSessions(now: Time)

  /** A submission straight to the executor: a root without a session. */
  predicate DirectRoot(inv: Invocation) {
    inv.session == None && inv.parent == None && inv.depth == 0
  }

  predicate Can(sys: System, act: Act) {
    match act
    case Step(a) => Enabled(sys.kernel, a) && (a.Submit? ==> DirectRoot(a.inv))
    case SessionSubmit(_, w, _, _, id, _) =>
      id !in sys.kernel.store.jobs && (w.Some? ==> IsExecuting(sys.kernel.workers, w.value))
    case OpenSession(sid, _, _) => sid !in sys.sessions
    case CloseSession(sid, _) => sid in sys.sessions
    case GcSessions(_) => true
  }

  function Touch(sys: System, sid: SessionId, now: Time): System
    requires sid in sys.sessions
  {
    sys.(sessions := sys.sessions[sid := sys.sessions[sid].(lastActivity := now)])
  }

  predicate IdleTooLong(session: Session, now: Time) {
    session.policy.idleTtl.Some? && session.status == Open && now - session.lastActivity >= session.policy.idleTtl.value
  }

  function Expire(sessions: map<SessionId, Session>, now: Time): map<SessionId, Session> {
    map sid | sid in sessions ::
      if IdleTooLong(sessions[sid], now) then sessions[sid].(status := Expired) else sessions[sid]
  }

  /** add_run, then _trim_runs against the statuses after the submission. */
  function Remember(session: Session, id: RunId, live: set<RunId>, retain: Option<int>): Session {
    session.(runIds := Trimmed(session.runIds + [id], live, retain))
  }

  ghost function After(sys: System, act: Act): System
    requires Can(sys, act)
  {
    match act
    case Step(a) => sys.(kernel := Next(sys.kernel, a))
    case SessionSubmit(sid, w, req, outside, id, now) =>
      (match Decide(sys, sid, w, req, outside, id)
       case Refused(SessionMissing) => sys
       case Refused(SessionNotOpen) => sys
       case Refused(_) => Touch(sys, sid, now)
       case Accepted(inv) =>
         var kernel := Next(sys.kernel, Submit(inv));
         var touched := Touch(sys, sid, now);
         touched.(kernel := kernel,
                  sessions := touched.sessions[sid :=
                    Remember(touched.sessions[sid], id, LiveIds(kernel.store), sys.retain)]))
    case OpenSession(sid, policy, now) =>
      sys.(sessions := sys.sessions[sid := Session(Open, policy, now, [])])
    case CloseSession(sid, now) =>
      if sys.sessions[sid].status == Closed then sys
      else sys.(sessions := sys.sessions[sid := sys.sessions[sid].(status := Closed, lastActivity := now)])
    case GcSessions(now) => sys.(sessions := Expire(sys.sessions, now))
  }

  ghost predicate Feasible(sys: System, acts: seq<Act>)
    decreases |acts|
  {
    acts == [] || (Can(sys, acts[0]) && Feasible(After(sys, acts[0]), acts[1..]))
  }

  ghost function Executed(sys: System, acts: seq<Act>): System
    requires Feasible(sys, acts)
    decreases |acts|
  {
    if acts == [] then sys else Executed(After(sys, acts[0]), acts[1..])
  }

  function Fresh(limits: Retention.Limits, n: nat, retain: Option<int>): System {
    System(Init(limits, n), map[], retain)
  }

  ghost predicate Arises(sys: System) {
    exists limits, n, retain, acts :: ArisesBy(limits, n, retain, acts, sys)
  }

  ghost predicate ArisesBy(limits: Retention.Limits, n: nat, retain: Option<int>, acts: seq<Act>, sys: System) {
    Feasible(Fresh(limits, n, retain), acts) && sys == Executed(Fresh(limits, n, retain), acts)
  }
}
