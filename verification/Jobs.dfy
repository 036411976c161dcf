/** One run's record as the job store keeps it, and the store's operations on values. */
module Jobs {
  import opened Basics
  import Retention

  datatype Status = Pending | Running | Succeeded | Failed | Cancelled | TimedOut {
    predicate Active() { Pending? || Running? }
  }

  /** A handler's Python value; NoneValue is what a run's result holds before it succeeds. */
  datatype Value = NoneValue | Object(id: int)

  /** The exceptions a handler may end with, by the except clause that catches them. */
  datatype Fault = CancelledError | TimeoutError | ConsoleExit(code: int) | OtherException(code: int)

  datatype Outcome = Returned(value: Value) | Raised(fault: Fault)

  /** An asyncio future; Abandoned is one cancelled by somebody waiting on it. */
  datatype Future = Unresolved | HasResult(value: Value) | HasFault(fault: Fault) | Abandoned

  /** The labels of the executor's own state events. */
  datatype Label = Start | CancelRequested | Success | Failure | Timeout | CancelledLabel {
    predicate Terminal() { !Start? && !CancelRequested? }
  }

  datatype Invocation = Invocation(
    runId: RunId, lockKey: LockKey, session: Option<SessionId>, parent: Option<RunId>, depth: nat,
    source: string, origin: Option<string>, timeoutMs: Option<int>)

  datatype Job = Job(
    inv: Invocation, status: Status, result: Value, fault: Option<Fault>, finishedAt: Option<Time>,
    future: Future, cancelFlag: bool, word: seq<Label>)

  // ---------------------------------------------------------------- the state-event language

  function Advance(status: Option<Status>, mark: Label): Option<Status> {
    match (status, mark)
    case (Some(Pending), Start) => Some(Running)
    case (Some(Pending), CancelledLabel) => Some(Cancelled)
    case (Some(Running), CancelRequested) => Some(Running)
    case (Some(Running), Success) => Some(Succeeded)
    case (Some(Running), Failure) => Some(Failed)
    case (Some(Running), Timeout) => Some(TimedOut)
    case (Some(Running), CancelledLabel) => Some(Cancelled)
    case _ => None
  }

  /** The status a word of labels stands for, None when no run emits that word. */
  function Meaning(word: seq<Label>): Option<Status> {
    if word == [] then Some(Pending) else Advance(Meaning(word[..|word| - 1]), word[|word| - 1])
  }

  lemma MeaningAppend(word: seq<Label>, mark: Label)
    ensures Meaning(word + [mark]) == Advance(Meaning(word), mark)
  {
    assert (word + [mark])[..|word|] == word;
  }

  /** A prefix of `cancelled`, or of `start cancel_requested* (success|failure|timeout|cancelled)`. */
  ghost predicate Grammatical(word: seq<Label>) {
    || word == []
    || word == [CancelledLabel]
    || (word[0] == Start
        && (forall i :: 0 < i < |word| - 1 ==> word[i] == CancelRequested)
        && (|word| > 1 ==> word[|word| - 1] != Start))
  }

  lemma {:induction false} EmittedWordsAreGrammatical(word: seq<Label>)
    ensures Meaning(word).Some? <==> Grammatical(word)
    ensures Meaning(word) == Some(Running)
            <==> word != [] && word[0] == Start
                 && forall i :: 0 < i < |word| ==> word[i] == CancelRequested
  {
    if |word| > 0 {
      var front := word[..|word| - 1];
      EmittedWordsAreGrammatical(front);
      if |word| == 1 {
        assert front == [];
      } else {
        assert front[0] == word[0];
        assert Meaning(front) == Some(Running) ==>
            forall i :: 0 < i < |word| - 1 ==> word[i] == front[i];
        if Grammatical(word) {
          assert forall i :: 0 < i < |front| ==> front[i] == word[i];
        }
      }
    }
  }

  /** Nothing follows a terminal label. */
  lemma TerminalLabelIsLast(word: seq<Label>, i: nat)
    requires Meaning(word).Some? && i < |word| && word[i].Terminal()
    ensures i == |word| - 1 && !Meaning(word).value.Active()
  {
    EmittedWordsAreGrammatical(word);
    assert word == [CancelledLabel] || i == |word| - 1;
    if word == [CancelledLabel] {
      assert word == [] + [CancelledLabel];
      MeaningAppend([], CancelledLabel);
    } else {
      assert word == word[..i] + [word[i]];
      MeaningAppend(word[..i], word[i]);
    }
  }

  // ---------------------------------------------------------------- transitions of one run

  function NewJob(inv: Invocation): Job {
    Job(inv, Pending, NoneValue, None, None, Unresolved, false, [])
  }

  /** future.set_result / set_exception behind the done() guard. */
  function Resolve(future: Future, outcome: Outcome): Future {
    if future != Unresolved then future
    else match outcome
      case Returned(v) => HasResult(v)
      case Raised(f) => HasFault(f)
  }

  datatype Reply = Missing | CancelledReply | Requested | Noop

  function CancelReply(job: Job): Reply {
    match job.status
    case Pending => CancelledReply
    case Running => Requested
    case _ => Noop
  }

  /** JobStore.cancel together with the event CommandExecutor.cancel emits. */
  function CancelJob(job: Job, now: Time): Job {
    match job.status
    case Pending =>
      job.(cancelFlag := true, status := Cancelled, finishedAt := Some(now), fault := Some(CancelledError),
           future := Resolve(job.future, Raised(CancelledError)), word := job.word + [CancelledLabel])
    case Running => job.(cancelFlag := true, word := job.word + [CancelRequested])
    case _ => job.(cancelFlag := true)
  }

  function StartJob(job: Job): Job {
    job.(status := Running, word := job.word + [Start])
  }

  function SettledStatus(outcome: Outcome): Status {
    match outcome
    case Returned(_) => Succeeded
    case Raised(TimeoutError) => TimedOut
    case Raised(CancelledError) => Cancelled
    case Raised(ConsoleExit(_)) => Cancelled
    case Raised(OtherException(_)) => Failed
  }

  function SettledLabel(outcome: Outcome): Label {
    match SettledStatus(outcome)
    case Succeeded => Success
    case TimedOut => Timeout
    case Cancelled => CancelledLabel
    case _ => Failure
  }

  /** Everything _execute_work_item does to the run once the handler has ended, before cleanup. */
  function SettleJob(job: Job, outcome: Outcome, now: Time): Job {
    var settled := match outcome
      case Returned(v) => job.(result := v)
      case Raised(f) => job.(fault := Some(f));
    settled.(status := SettledStatus(outcome), word := job.word + [SettledLabel(outcome)],
             future := Resolve(job.future, outcome), finishedAt := Some(now))
  }

  /** A waiter's own cancellation cancels the future it awaits. */
  function AbandonJob(job: Job): Job {
    if job.future == Unresolved then job.(future := Abandoned) else job
  }

  // ---------------------------------------------------------------- what every run's record keeps

  ghost predicate Agrees(job: Job) {
    match job.status
    case Pending => job.fault.None? && job.future in {Unresolved, Abandoned}
    case Running => job.fault.None? && job.future in {Unresolved, Abandoned}
    case Succeeded => job.fault.None? && job.future in {HasResult(job.result), Abandoned}
    case _ =>
      && job.fault.Some? && job.result == NoneValue
      && job.status == SettledStatus(Raised(job.fault.value))
      && job.future in {HasFault(job.fault.value), Abandoned}
  }

  ghost predicate JobOk(job: Job) {
    && Meaning(job.word) == Some(job.status)
    && (job.finishedAt.Some? <==> !job.status.Active())
    && (job.status.Active() ==> job.result == NoneValue)
    && Agrees(job)
  }

  lemma NewJobOk(inv: Invocation)
    ensures JobOk(NewJob(inv))
  {
  }

  lemma CancelPendingOk(job: Job, now: Time)
    requires JobOk(job) && job.status == Pending
    ensures JobOk(CancelJob(job, now))
  {
    hide Meaning;
    MeaningAppend(job.word, CancelledLabel);
  }

  lemma CancelRunningOk(job: Job, now: Time)
    requires JobOk(job) && job.status == Running
    ensures JobOk(CancelJob(job, now))
  {
    hide Meaning;
    MeaningAppend(job.word, CancelRequested);
  }

  lemma CancelOverOk(job: Job, now: Time)
    requires JobOk(job) && !job.status.Active()
    ensures JobOk(CancelJob(job, now))
  {
    hide Meaning;
  }

  lemma CancelJobOk(job: Job, now: Time)
    requires JobOk(job)
    ensures JobOk(CancelJob(job, now))
    ensures CancelledAs(job, CancelJob(job, now), now) && CancelJob(job, now).word == CancelWord(job)
  {
    CancelsAs(job, now);
    hide JobOk, CancelJob, CancelledAs, CancelWord;
    match job.status {
      case Pending => { CancelPendingOk(job, now); }
      case Running => { CancelRunningOk(job, now); }
      case _ => { CancelOverOk(job, now); }
    }
  }

  lemma StartJobOk(job: Job)
    requires JobOk(job) && job.status == Pending
    ensures JobOk(StartJob(job))
  {
    MeaningAppend(job.word, Start);
  }

  lemma SettleJobOk(job: Job, outcome: Outcome, now: Time)
    requires JobOk(job) && job.status == Running
    ensures JobOk(SettleJob(job, outcome, now)) && EndedAs(job, SettleJob(job, outcome, now), outcome, now)
  {
    hide Meaning, EndedAs;
    SettleEndsAs(job, outcome, now);
    MeaningAppend(job.word, SettledLabel(outcome));
  }

  // ---------------------------------------------------------------- the same, exception by exception

  /** How a handler's end shows in its run's record; a future somebody has cancelled stays cancelled. */
  ghost predicate EndedAs(was: Job, job: Job, outcome: Outcome, now: Time) {
    && job.inv == was.inv && job.cancelFlag == was.cancelFlag && job.finishedAt == Some(now)
    && match outcome
       case Returned(v) =>
         && job.status == Succeeded && job.result == v && job.fault == was.fault && job.word == was.word + [Success]
         && job.future == if was.future == Unresolved then HasResult(v) else was.future
       case Raised(fault) =>
         && job.fault == Some(fault) && job.result == was.result
         && job.future == (if was.future == Unresolved then HasFault(fault) else was.future)
         && match fault
            case TimeoutError => job.status == TimedOut && job.word == was.word + [Timeout]
            case CancelledError => job.status == Cancelled && job.word == was.word + [CancelledLabel]
            case ConsoleExit(_) => job.status == Cancelled && job.word == was.word + [CancelledLabel]
            case OtherException(_) => job.status == Failed && job.word == was.word + [Failure]
  }

  lemma SettleEndsAs(job: Job, outcome: Outcome, now: Time)
    ensures EndedAs(job, SettleJob(job, outcome, now), outcome, now)
  {
  }

  /** What a cancel does to a run's record: the flag is set whatever the status, the rest only if it is pending. */
  ghost predicate CancelledAs(was: Job, job: Job, now: Time) {
    && job.inv == was.inv && job.result == was.result && job.cancelFlag
    && if was.status == Pending
       then && job.status == Cancelled && job.fault == Some(CancelledError) && job.finishedAt == Some(now)
            && job.future == if was.future == Unresolved then HasFault(CancelledError) else was.future
       else && job.status == was.status && job.fault == was.fault && job.finishedAt == was.finishedAt
            && job.future == was.future
  }

  /** The events a cancel is announced with. */
  function CancelWord(was: Job): seq<Label> {
    match was.status
    case Pending => was.word + [CancelledLabel]
    case Running => was.word + [CancelRequested]
    case _ => was.word
  }

  lemma CancelsAs(job: Job, now: Time)
    ensures CancelledAs(job, CancelJob(job, now), now) && CancelJob(job, now).word == CancelWord(job)
  {
  }

  /** A run's exception, its status and its last event go together. */
  lemma FaultAndLastEventTellStatus(job: Job)
    requires JobOk(job)
    ensures job.status == TimedOut <==> job.fault == Some(TimeoutError)
    ensures job.status == Cancelled <==>
              job.fault.Some? && (job.fault.value == CancelledError || job.fault.value.ConsoleExit?)
    ensures job.status == Failed <==> job.fault.Some? && job.fault.value.OtherException?
    ensures job.status in {Pending, Running, Succeeded} <==> job.fault == None
    ensures job.word == [] <==> job.status == Pending
    ensures job.word != [] ==>
              var last := job.word[|job.word| - 1];
              && (job.status == Running <==> last in {Start, CancelRequested})
              && (job.status == Succeeded <==> last == Success) && (job.status == Failed <==> last == Failure)
              && (job.status == TimedOut <==> last == Timeout) && (job.status == Cancelled <==> last == CancelledLabel)
  {
  }

  // ---------------------------------------------------------------- reading a result

  /** What `await future` gives once the future is done. */
  function ByFuture(job: Job): Outcome
    requires job.future != Unresolved
  {
    match job.future
    case HasResult(v) => Returned(v)
    case HasFault(f) => Raised(f)
    case Abandoned => Raised(CancelledError)
  }

  /** What JobStore.result answers from the stored state, when there is no future. */
  function ByState(job: Job): Outcome {
    match job.fault
    case Some(f) => Raised(f)
    case None => Returned(job.result)
  }

  /** Finish time, future and status agree, and so do the two ways to read a result, but for a cancelled future. */
  lemma ResultAgreesEitherWay(job: Job)
    requires JobOk(job)
    ensures job.finishedAt.Some? <==> !job.status.Active()
    ensures !job.status.Active() ==> job.future != Unresolved
    ensures job.future != Abandoned ==> (job.future != Unresolved <==> !job.status.Active())
    ensures job.future !in {Unresolved, Abandoned} ==> ByFuture(job) == ByState(job)
    ensures job.future.HasResult? ==> job.status == Succeeded
    ensures job.status == Succeeded ==> ByState(job) == Returned(job.result)
    ensures job.status in {Failed, Cancelled, TimedOut} ==>
              job.fault.Some? && ByState(job) == Raised(job.fault.value)
  {
  }

  // ---------------------------------------------------------------- the store

  /**
   * `jobs` holds every run object ever created, by its fresh run id; `stored` is the domain of the store's
   * dictionaries, so a popped run stays in `jobs` (a worker may still refer to it) but not in `stored`.
   */
  datatype Store = Store(limits: Retention.Limits, jobs: map<RunId, Job>, stored: set<RunId>)

  function EmptyStore(limits: Retention.Limits): Store {
    Store(limits, map[], {})
  }

  ghost predicate StoreOk(s: Store) {
    && s.stored <= s.jobs.Keys
    && (forall id :: id in s.jobs ==> s.jobs[id].inv.runId == id && JobOk(s.jobs[id]))
    && (forall id :: id in s.jobs && id !in s.stored ==> !s.jobs[id].status.Active())
  }

  function Put(s: Store, id: RunId, job: Job): Store {
    s.(jobs := s.jobs[id := job])
  }

  function Create(s: Store, inv: Invocation): Store {
    s.(jobs := s.jobs[inv.runId := NewJob(inv)], stored := s.stored + {inv.runId})
  }

  function CancelIn(s: Store, id: RunId, now: Time): Store {
    if id in s.stored && id in s.jobs then Put(s, id, CancelJob(s.jobs[id], now)) else s
  }

  function Pop(s: Store, id: RunId): Store {
    if id in s.stored && id in s.jobs
    then Put(s, id, AbandonJob(s.jobs[id])).(stored := s.stored - {id})
    else s
  }

  lemma PutOk(s: Store, id: RunId, job: Job)
    requires StoreOk(s) && id in s.jobs && JobOk(job) && job.inv == s.jobs[id].inv
    requires id !in s.stored ==> !job.status.Active()
    ensures StoreOk(Put(s, id, job))
  {
    hide JobOk;
  }

  lemma AbandonOk(s: Store, id: RunId)
    requires StoreOk(s) && id in s.jobs
    ensures StoreOk(Put(s, id, AbandonJob(s.jobs[id])))
  {
    PutOk(s, id, AbandonJob(s.jobs[id]));
  }

  lemma PopOk(s: Store, id: RunId)
    requires StoreOk(s) && (id in s.jobs ==> !s.jobs[id].status.Active())
    ensures StoreOk(Pop(s, id))
  {
    if id in s.stored {
      AbandonOk(s, id);
      hide JobOk;
    }
  }

  lemma CancelInOk(s: Store, id: RunId, now: Time)
    requires StoreOk(s)
    ensures StoreOk(CancelIn(s, id, now))
  {
    if id in s.stored {
      CancelJobOk(s.jobs[id], now);
      PutOk(s, id, CancelJob(s.jobs[id], now));
    }
  }

  lemma CreateOk(s: Store, inv: Invocation)
    requires StoreOk(s) && inv.runId !in s.jobs
    ensures StoreOk(Create(s, inv))
  {
    NewJobOk(inv);
    hide JobOk;
  }

  /** The table of stored runs as cleanup reads it. */
  ghost function Snapshot(s: Store): Retention.Table {
    map id | id in s.stored && id in s.jobs ::
      Retention.Entry(s.jobs[id].status.Active(), s.jobs[id].finishedAt)
  }

  lemma SnapshotStamped(s: Store)
    requires StoreOk(s)
    ensures Retention.Stamped(Snapshot(s))
  {
  }

  /** The completed stored runs that finished later than run id, or at the same time with a greater id. */
  ghost function FinishedAfter(s: Store, id: RunId): set<RunId>
    requires id in s.jobs && s.jobs[id].finishedAt.Some?
  {
    set other | other in s.stored && other in s.jobs && s.jobs[other].finishedAt.Some?
                && s.jobs[other].status !in {Pending, Running}
                && (s.jobs[other].finishedAt.value > s.jobs[id].finishedAt.value
                    || (s.jobs[other].finishedAt == s.jobs[id].finishedAt && LexLess(id, other)))
  }

  /** The runs a cleanup leaves: active ones, and completed ones within the TTL and among the last N. */
  ghost predicate Stays(s: Store, now: Time, id: RunId)
    requires id in s.jobs
  {
    || s.jobs[id].status in {Pending, Running}
    || (&& s.jobs[id].finishedAt.Some?
        && (s.limits.ttl == None || now - s.jobs[id].finishedAt.value < s.limits.ttl.value)
        && (s.limits.retainLastN == None || s.limits.retainLastN.value < 0
            || |FinishedAfter(s, id)| < s.limits.retainLastN.value))
  }

  lemma CleanKeepsWhatStays(s: Store, now: Time, id: RunId)
    requires StoreOk(s) && id in s.stored && id in s.jobs
    ensures id in Clean(s, now).stored <==> Stays(s, now, id)
  {
    hide JobOk, Retention.Kept;
    SnapshotStamped(s);
    Retention.KeptMustStay(s.limits, Snapshot(s), now, id);
    StampedWhenOver(s, id);
    if !s.jobs[id].status.Active() {
      forall other | other in s.stored && other in s.jobs
        ensures s.jobs[other].status in {Pending, Running} || s.jobs[other].finishedAt.Some?
      {
        StampedWhenOver(s, other);
      }
      assert FinishedAfter(s, id) == Retention.Newer(Snapshot(s), id);
    }
  }

  lemma StampedWhenOver(s: Store, id: RunId)
    requires StoreOk(s) && id in s.jobs
    ensures s.jobs[id].finishedAt.Some? <==> s.jobs[id].status !in {Pending, Running}
  {
  }

  ghost function CleanedIds(s: Store, now: Time): set<RunId> {
    if Retention.Stamped(Snapshot(s)) then Retention.Kept(s.limits, Snapshot(s), now) else s.stored
  }

  ghost function Clean(s: Store, now: Time): Store {
    s.(stored := CleanedIds(s, now))
  }

  lemma CleanKeepsActive(s: Store, now: Time)
    requires StoreOk(s)
    ensures StoreOk(Clean(s, now)) && Clean(s, now).stored <= s.stored
    ensures forall id :: id in s.stored && s.jobs[id].status.Active() ==> id in Clean(s, now).stored
  {
    SnapshotStamped(s);
  }

  // ---------------------------------------------------------------- terminal runs never change

  /** How a run may change over any stretch of execution. */
  ghost predicate Evolves(old_: Job, new_: Job) {
    && new_.inv == old_.inv
    && old_.word <= new_.word
    && (old_.future != Unresolved ==> new_.future == old_.future)
    && (!old_.status.Active() ==>
          && new_.status == old_.status && new_.result == old_.result && new_.fault == old_.fault
          && new_.finishedAt == old_.finishedAt && new_.word == old_.word)
  }

  ghost predicate StoreEvolves(s: Store, t: Store) {
    && t.limits == s.limits
    && forall id :: id in s.jobs ==>
         && id in t.jobs && Evolves(s.jobs[id], t.jobs[id])
         && (id !in s.stored ==> id !in t.stored)
  }

  lemma StoreEvolvesTransitive(s: Store, t: Store, u: Store)
    requires StoreEvolves(s, t) && StoreEvolves(t, u)
    ensures StoreEvolves(s, u)
  {
  }
}
