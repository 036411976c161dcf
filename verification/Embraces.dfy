/**
 * One line of awaiting runs: a key held further up the line closes a cycle, and nothing but a cut opens it. Cycles
 * through several lines, and which rules for keys rule all of them out, are in KeyRules and KeyCycles.
 */
module Embraces {
  import opened Basics
  import opened Jobs
  import opened Kernel
  import opened Invariants
  import opened Actions
  import opened Safety
  import opened Waits

  /** Each worker's run awaits the unfinished run at the next worker. */
  ghost predicate AwaitingLine(s: State, ws: seq<Worker>) {
    && ws != [] && (forall i :: 0 <= i < |ws| ==> Busy(s.workers, ws[i]))
    && (forall i :: 0 <= i < |ws| - 1 ==> ResultWait(s, ws[i], IdAt(s.workers, ws[i + 1])))
  }

  ghost function Ids(s: State, ws: seq<Worker>): seq<RunId>
    requires AwaitingLine(s, ws)
  {
    seq(|ws|, i requires 0 <= i < |ws| => IdAt(s.workers, ws[i]))
  }

  /**
   * At the end of a line of awaiting runs, waiting for a lock closes a cycle with a run of the line if and only if it
   * is that run's key which is waited for, however far up the line the run is.
   */
  lemma AwaitedKeyClosesCycle(s: State, ws: seq<Worker>)
    requires Reachable(s) && |ws| >= 2 && AwaitingLine(s, ws) && IsWaiting(s.workers, ws[|ws| - 1])
    ensures LockWait(s, ws[|ws| - 1], ws[0])
            <==> s.workers[ws[|ws| - 1]].item.lockKey == s.workers[ws[0]].item.lockKey
    ensures s.workers[ws[|ws| - 1]].item.lockKey == s.workers[ws[0]].item.lockKey ==>
              Chain(s, Ids(s, ws) + [IdAt(s.workers, ws[0])])
  {
    hide Inv, Reachable;
    ReachableInv(s);
    var last := ws[|ws| - 1];
    WaitingIsNotRunning(s, last);
    HolderExecutes(s, s.workers[last].item.lockKey, ws[0]);
    assert ResultWait(s, ws[0], IdAt(s.workers, ws[1]));
    if s.workers[last].item.lockKey == s.workers[ws[0]].item.lockKey {
      var path := Ids(s, ws) + [IdAt(s.workers, ws[0])];
      forall i | 0 <= i < |path| - 1 ensures WaitsFor(s, path[i], path[i + 1]) {
        if i < |ws| - 1 {
          assert ResultWait(s, ws[i], path[i + 1]) && IdAt(s.workers, ws[i]) == path[i];
        } else {
          assert LockWait(s, last, ws[0]);
        }
      }
    }
  }

  // ---------------------------------------------------------------- it stays closed

  /** A closed cycle none of whose results has been cancelled. */
  ghost predicate Embrace(s: State, ws: seq<Worker>) {
    && |ws| >= 2 && AwaitingLine(s, ws) && IsWaiting(s.workers, ws[|ws| - 1])
    && s.workers[ws[|ws| - 1]].item.lockKey == s.workers[ws[0]].item.lockKey
    && (forall i :: 0 < i < |ws| ==>
          IdAt(s.workers, ws[i]) in s.store.jobs && s.store.jobs[IdAt(s.workers, ws[i])].future == Unresolved)
  }

  /** What cuts an embrace: a timeout of a member, a cancelled await of one, or a cancel of the one still pending. */
  ghost predicate Cuts(s: State, ws: seq<Worker>, a: Action)
    requires AwaitingLine(s, ws)
  {
    || (a.Finish? && a.w in ws)
    || (a.AbandonFuture? && exists i :: 0 < i < |ws| && IdAt(s.workers, ws[i]) == a.id)
    || (a.Cancel? && a.id == IdAt(s.workers, ws[|ws| - 1]))
  }

  predicate Unfinished(job: Job) {
    job.status.Active() && job.future == Unresolved
  }

  /** All that one action can do to one run. */
  lemma JobAfter(s: State, a: Action, id: RunId)
    requires Enabled(s, a) && id in s.store.jobs
    ensures id in Next(s, a).store.jobs
    ensures var old_, new_ := s.store.jobs[id], Next(s, a).store.jobs[id];
            || new_ == old_
            || new_ == StartJob(old_)
            || (a.Finish? && IdAt(s.workers, a.w) == id)
            || (a.Cancel? && a.id == id && new_ == CancelJob(old_, a.now))
            || (a.AbandonFuture? && a.id == id)
            || (a.PopRun? && a.id == id && !old_.status.Active())
  {
    hide StartJob, SettleJob, CancelJob, AbandonJob, CleanedIds, Blocked;
  }

  /** An unfinished run whose future nobody touches stays unfinished unless its own handler ends. */
  lemma UnfinishedStays(s: State, a: Action, w: Worker)
    requires Inv(s) && Enabled(s, a) && Busy(s.workers, w) && IdAt(s.workers, w) in s.store.jobs
    requires Unfinished(s.store.jobs[IdAt(s.workers, w)])
    requires !(a.Finish? && a.w == w) && !(a.AbandonFuture? && a.id == IdAt(s.workers, w))
    requires a.Cancel? && a.id == IdAt(s.workers, w) ==> IsExecuting(s.workers, w)
    ensures IdAt(s.workers, w) in Next(s, a).store.jobs && Unfinished(Next(s, a).store.jobs[IdAt(s.workers, w)])
  {
    hide Inv, Next;
    JobAfter(s, a, IdAt(s.workers, w));
    if a.Finish? { DistinctItems(s, w, a.w); }
    if a.Cancel? && a.id == IdAt(s.workers, w) { ExecutingIsRunning(s, w); }
  }

  lemma DistinctItems(s: State, v: Worker, w: Worker)
    requires Inv(s) && Busy(s.workers, v) && Busy(s.workers, w) && v != w
    ensures IdAt(s.workers, v) != IdAt(s.workers, w)
  {
    hide StoreOk, ItemsKnown, AwaitsKnown, StatusesFit, LogRight, LocksMatch, Fifo;
  }

  /** A worker in the embrace keeps its phase, but for other runs it may await. */
  lemma MemberStays(s: State, ws: seq<Worker>, a: Action, i: nat)
    requires Inv(s) && Embrace(s, ws) && Enabled(s, a) && !Cuts(s, ws, a) && i < |ws|
    ensures var w, t := ws[i], Next(s, a);
            && Busy(t.workers, w) && t.workers[w].item == s.workers[w].item
            && (i < |ws| - 1 ==> IsExecuting(t.workers, w) && IdAt(s.workers, ws[i + 1]) in t.workers[w].awaiting)
            && (i == |ws| - 1 ==> IsWaiting(t.workers, w))
  {
    hide Inv, StartJob, SettleJob, CancelJob, AbandonJob, CleanedIds, Skips;
    WaitingIsNotRunning(s, ws[|ws| - 1]);
    HolderExecutes(s, s.workers[ws[|ws| - 1]].item.lockKey, ws[0]);
    assert ResultWait(s, ws[0], IdAt(s.workers, ws[1]));
    if i < |ws| - 1 { assert ResultWait(s, ws[i], IdAt(s.workers, ws[i + 1])); }
  }

  lemma MemberUnfinished(s: State, ws: seq<Worker>, a: Action, i: nat)
    requires Inv(s) && Embrace(s, ws) && Enabled(s, a) && !Cuts(s, ws, a) && 0 < i < |ws|
    ensures var id := IdAt(s.workers, ws[i]);
            id in Next(s, a).store.jobs && Unfinished(Next(s, a).store.jobs[id])
  {
    hide Inv, Next, Enabled;
    assert ResultWait(s, ws[i - 1], IdAt(s.workers, ws[i - 1 + 1]));
    if i < |ws| - 1 { assert ResultWait(s, ws[i], IdAt(s.workers, ws[i + 1])); }
    assert ws[i] in ws;
    UnfinishedStays(s, a, ws[i]);
  }

  lemma EmbraceStays(s: State, ws: seq<Worker>, a: Action)
    requires Inv(s) && Embrace(s, ws) && Enabled(s, a) && !Cuts(s, ws, a)
    ensures Embrace(Next(s, a), ws)
  {
    hide Inv, Next, Enabled, Cuts;
    var t := Next(s, a);
    forall i | 0 <= i < |ws| ensures Busy(t.workers, ws[i]) { MemberStays(s, ws, a, i); }
    forall i | 0 <= i < |ws| - 1 ensures ResultWait(t, ws[i], IdAt(t.workers, ws[i + 1])) {
      MemberStays(s, ws, a, i);
      MemberStays(s, ws, a, i + 1);
      MemberUnfinished(s, ws, a, i + 1);
    }
    MemberStays(s, ws, a, 0);
    MemberStays(s, ws, a, |ws| - 1);
    forall i | 0 < i < |ws|
      ensures IdAt(t.workers, ws[i]) in t.store.jobs && t.store.jobs[IdAt(t.workers, ws[i])].future == Unresolved
    {
      MemberStays(s, ws, a, i);
      MemberUnfinished(s, ws, a, i);
    }
  }

  /** And each cut does open it, so an embrace outlives an action if and only if the action is not a cut. */
  lemma CutOpens(s: State, ws: seq<Worker>, a: Action)
    requires Inv(s) && Embrace(s, ws) && Enabled(s, a)
    ensures Embrace(Next(s, a), ws) <==> !Cuts(s, ws, a)
  {
    if !Cuts(s, ws, a) {
      EmbraceStays(s, ws, a);
    } else if a.Cancel? {
      PendingAtTheEnd(s, ws);
      CancelledIsFinished(s, a.id, a.now);
    } else if a.AbandonFuture? {
      AbandonedIsResolved(s, a.id);
    }
    hide Inv;
  }

  lemma PendingAtTheEnd(s: State, ws: seq<Worker>)
    requires Inv(s) && Embrace(s, ws)
    ensures var id := IdAt(s.workers, ws[|ws| - 1]);
            id in s.store.jobs && s.store.jobs[id].status == Pending && id in s.store.stored
  {
    hide ItemsKnown, AwaitsKnown, PlacesRight, StatusesFit, LogRight, LocksMatch, Fifo, JobOk;
    var n := |ws|;
    assert ResultWait(s, ws[n - 2], IdAt(s.workers, ws[n - 2 + 1]));
    WaitingIsNotRunning(s, ws[n - 1]);
  }

  lemma CancelledIsFinished(s: State, id: RunId, now: Time)
    requires id in s.store.jobs && id in s.store.stored && s.store.jobs[id].status == Pending
    ensures var t := Next(s, Cancel(id, now));
            t.workers == s.workers && id in t.store.jobs && !t.store.jobs[id].status.Active()
  {
  }

  lemma AbandonedIsResolved(s: State, id: RunId)
    requires id in s.store.jobs
    ensures var t := Next(s, AbandonFuture(id));
            t.workers == s.workers && id in t.store.jobs && t.store.jobs[id].future != Unresolved
  {
  }

  ghost predicate Uncut(s: State, ws: seq<Worker>, acts: seq<Action>)
    requires Legal(s, acts)
    decreases |acts|
  {
    acts == [] || (AwaitingLine(s, ws) && !Cuts(s, ws, acts[0]) && Uncut(Next(s, acts[0]), ws, acts[1..]))
  }

  /**
   * However many workers there are and whatever they and others do, an embrace holds its runs for ever unless it is
   * cut by a timeout, a cancelled await or a cancel from outside.
   */
  lemma {:induction false} EmbraceHolds(s: State, ws: seq<Worker>, acts: seq<Action>)
    requires Inv(s) && Embrace(s, ws) && Legal(s, acts) && Uncut(s, ws, acts)
    ensures Embrace(Exec(s, acts), ws)
    decreases |acts|
  {
    hide Inv, Next, Enabled, Cuts, Embrace, AwaitingLine;
    if acts != [] {
      EmbraceStays(s, ws, acts[0]);
      NextKeepsInv(s, acts[0]);
      EmbraceHolds(Next(s, acts[0]), ws, acts[1..]);
    }
  }
}
