/** What the cancel flag and the queue tell about the actions taken so far. */
module Histories {
  import opened Basics
  import opened Jobs
  import opened Kernel
  import Retention

  /** The i-th action is a cancel of run id, taken while that run is stored. */
  ghost predicate CancelsAt(s: State, acts: seq<Action>, i: nat, id: RunId) {
    && i < |acts| && acts[i].Cancel? && acts[i].id == id
    && Legal(s, acts[..i]) && id in Exec(s, acts[..i]).store.stored
  }

  /** A step sets a run's flag if it is such a cancel; nothing clears it, and a new run's is clear. */
  lemma FlagStep(s: State, a: Action, id: RunId)
    requires Enabled(s, a) && id in Next(s, a).store.jobs
    ensures Next(s, a).store.jobs[id].cancelFlag
            <==> id in s.store.jobs
                 && (s.store.jobs[id].cancelFlag || (a.Cancel? && a.id == id && id in s.store.stored))
  {
    hide CleanedIds, SettledStatus, SettledLabel, Resolve;
  }

  lemma NothingNew(s: State, a: Action, id: RunId)
    requires Enabled(s, a)
    ensures id in s.store.jobs ==> id in Next(s, a).store.jobs
    ensures a.Cancel? ==> Next(s, a).store.jobs.Keys == s.store.jobs.Keys
    ensures s.store.stored <= s.store.jobs.Keys ==> Next(s, a).store.stored <= Next(s, a).store.jobs.Keys
  {
    hide SettleJob, StartJob, CancelJob, AbandonJob;
  }

  lemma LaterCancel(s: State, acts: seq<Action>, i: nat, id: RunId)
    requires acts != [] && Enabled(s, acts[0]) && 0 < i < |acts|
    ensures CancelsAt(s, acts, i, id) <==> CancelsAt(Next(s, acts[0]), acts[1..], i - 1, id)
  {
    hide Next, Enabled;
    assert acts[..i][1..] == acts[1..][..i - 1];
  }

  lemma {:induction false} FlagAfter(s: State, acts: seq<Action>, id: RunId)
    requires Legal(s, acts) && id in Exec(s, acts).store.jobs && s.store.stored <= s.store.jobs.Keys
    ensures Exec(s, acts).store.jobs[id].cancelFlag
            <==> (id in s.store.jobs && s.store.jobs[id].cancelFlag) || exists i: nat :: CancelsAt(s, acts, i, id)
    decreases |acts|
  {
    hide Next, Enabled, CancelsAt;
    if acts == [] {
      NoCancel(s, id);
    } else {
      var t := Next(s, acts[0]);
      NothingNew(s, acts[0], id);
      FlagAfter(t, acts[1..], id);
      FirstCancel(s, acts, id);
      if id in t.store.jobs { FlagStep(s, acts[0], id); }
      forall i: nat | 0 < i < |acts|
        ensures CancelsAt(s, acts, i, id) <==> CancelsAt(t, acts[1..], i - 1, id)
      {
        LaterCancel(s, acts, i, id);
      }
      ShiftCancels(s, acts, t, id);
    }
  }

  lemma NoCancel(s: State, id: RunId)
    ensures forall i: nat :: !CancelsAt(s, [], i, id)
  {
  }

  lemma FirstCancel(s: State, acts: seq<Action>, id: RunId)
    requires acts != []
    ensures CancelsAt(s, acts, 0, id) <==> acts[0].Cancel? && acts[0].id == id && id in s.store.stored
  {
    assert acts[..0] == [];
  }

  lemma ShiftCancels(s: State, acts: seq<Action>, t: State, id: RunId)
    requires acts != []
    requires forall i: nat | 0 < i < |acts| :: CancelsAt(s, acts, i, id) <==> CancelsAt(t, acts[1..], i - 1, id)
    ensures (exists i: nat :: CancelsAt(s, acts, i, id))
            <==> CancelsAt(s, acts, 0, id) || exists i: nat :: CancelsAt(t, acts[1..], i, id)
  {
    InRange(s, acts, id);
    InRange(t, acts[1..], id);
    hide CancelsAt;
    if j: nat :| CancelsAt(t, acts[1..], j, id) { assert CancelsAt(s, acts, j + 1, id); }
    if i: nat :| CancelsAt(s, acts, i, id) {
      if i > 0 { assert CancelsAt(t, acts[1..], i - 1, id); }
    }
  }

  lemma InRange(s: State, acts: seq<Action>, id: RunId)
    ensures forall i: nat :: CancelsAt(s, acts, i, id) ==> i < |acts|
  {
  }

  /** A run's cancel flag is set if and only if a cancel was taken while the run was stored; nothing clears it. */
  lemma FlagTellsOfCancel(limits: Retention.Limits, n: nat, acts: seq<Action>, s: State, id: RunId)
    requires ReachableBy(limits, n, acts, s) && id in s.store.jobs
    ensures s.store.jobs[id].cancelFlag <==> exists i: nat :: CancelsAt(Init(limits, n), acts, i, id)
  {
    hide CancelsAt, Next, Enabled;
    FlagAfter(Init(limits, n), acts, id);
  }

  // ---------------------------------------------------------------- the queue

  ghost predicate QueueIsTail(s: State) {
    |s.queue| <= |s.submitted| && s.queue == s.submitted[|s.submitted| - |s.queue|..]
  }

  lemma StepKeepsTail(s: State, a: Action)
    requires Enabled(s, a) && QueueIsTail(s)
    ensures QueueIsTail(Next(s, a))
  {
    hide StartJob, SettleJob, CancelJob, AbandonJob, CleanedIds, Skips, Blocked;
  }

  lemma {:induction false} TailAfter(s: State, acts: seq<Action>)
    requires Legal(s, acts) && QueueIsTail(s)
    ensures QueueIsTail(Exec(s, acts))
    decreases |acts|
  {
    hide Next, Enabled, QueueIsTail;
    if acts != [] {
      StepKeepsTail(s, acts[0]);
      TailAfter(Next(s, acts[0]), acts[1..]);
    }
  }

  /** Items leave the queue in the order of submission, whatever their keys: what is left is the latest ones. */
  lemma QueueIsFifo(s: State)
    requires Reachable(s)
    ensures |s.queue| <= |s.submitted| && s.queue == s.submitted[|s.submitted| - |s.queue|..]
  {
    hide Next, Enabled, Legal, Exec;
    var limits, n, acts :| ReachableBy(limits, n, acts, s);
    TailAfter(Init(limits, n), acts);
  }
}
