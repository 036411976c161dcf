/** What a callback watch has done in every reachable state, and that it always gets to its end. */
module CallbackResults {
  import opened Basics
  import opened Events
  import opened Callbacks

  function EmptyRegistry(cfg: Config): Registry {
    Registry(EmptyBus(cfg), [], {}, map[])
  }

  ghost predicate Legal(s: Registry, acts: seq<Callbacks.Action>)
    decreases |acts|
  {
    acts == [] || (Callbacks.Enabled(s, acts[0]) && Legal(Callbacks.Next(s, acts[0]), acts[1..]))
  }

  ghost function Exec(s: Registry, acts: seq<Callbacks.Action>): Registry
    requires Legal(s, acts)
    decreases |acts|
  {
    if acts == [] then s else Exec(Callbacks.Next(s, acts[0]), acts[1..])
  }

  ghost predicate ReachableBy(cfg: Config, acts: seq<Callbacks.Action>, s: Registry) {
    Legal(EmptyRegistry(cfg), acts) && s == Exec(EmptyRegistry(cfg), acts)
  }

  lemma {:induction false} ExecKeepsInv(s: Registry, acts: seq<Callbacks.Action>)
    requires Inv(s) && Legal(s, acts)
    ensures Inv(Exec(s, acts))
    decreases |acts|
  {
    hide Inv, Callbacks.Next, Callbacks.Enabled;
    if acts != [] {
      Callbacks.NextKeepsInv(s, acts[0]);
      ExecKeepsInv(Callbacks.Next(s, acts[0]), acts[1..]);
    }
  }

  lemma EmptyInv(cfg: Config)
    ensures Inv(EmptyRegistry(cfg))
  {
  }

  lemma ReachableInv(cfg: Config, acts: seq<Callbacks.Action>, s: Registry)
    requires ReachableBy(cfg, acts, s)
    ensures Inv(s)
  {
    hide Inv;
    EmptyInv(cfg);
    ExecKeepsInv(EmptyRegistry(cfg), acts);
  }

  /** A watch's calls fit what it took, and what it took and has waiting is what it heard. */
  lemma WatchFacts(s: Registry, id: SubId)
    requires Inv(s) && id in s.watches
    ensures WatchOk(s.bus, id in s.subs, s.watches[id]) && QueueOk(s.bus, s.watches[id].queue)
  {
    hide QueueOk, CallsFit, Unheard;
    assert WatchOk(s.bus, id in s.subs, s.watches[id]);
  }

  /** The first terminal state event of a log from position `cut` on. */
  ghost predicate FirstTerminal(log: seq<Event>, cut: nat, k: nat) {
    cut <= k < |log| && IsTerminal(log[k]) && forall i :: cut <= i < k ==> !IsTerminal(log[i])
  }

  /** The calls owed for the events of a log from `cut` through position k, the last one ending the watch. */
  function FullCalls(w: Watch, log: seq<Event>, cut: nat, k: nat): seq<Call>
    requires cut <= k < |log|
  {
    EventCalls(w.onEvent, log[cut..k + 1]) + if w.onDone then [OnDone(log[k])] else []
  }

  /** Every event from the cut to the first terminal one was called, and queue and subscription are gone. */
  ghost predicate FinishedRight(s: Registry, id: SubId)
    requires id in s.watches
  {
    var w := s.watches[id];
    && w.queue in s.bus.heard && w.queue in s.bus.tickets && id !in s.subs
    && (forall r :: w.queue !in Subscribers(s.bus, r))
    && (exists k ::
          && FirstTerminal(s.bus.heard[w.queue], s.bus.tickets[w.queue].pruned, k)
          && w.calls == FullCalls(w, s.bus.heard[w.queue], s.bus.tickets[w.queue].pruned, k))
  }

  lemma FinishedIsRight(s: Registry, id: SubId)
    requires Inv(s) && id in s.watches && s.watches[id].stage == Ended(true)
    ensures FinishedRight(s, id)
  {
    hide Inv;
    WatchFacts(s, id);
    var w := s.watches[id];
    var heard, cut, es := s.bus.heard[w.queue], s.bus.tickets[w.queue].pruned, s.bus.taken[w.queue];
    var k := cut + |es| - 1;
    TakenOfHeard(s.bus, w.queue);
    assert es == heard[cut..k + 1];
    forall i | cut <= i < k ensures !IsTerminal(heard[i]) {
      assert heard[i] == es[..|es| - 1][i - cut];
    }
    assert FirstTerminal(heard, cut, k);
  }

  /**
   * A watch that finished called on_event on every event retained when it registered or published since, in order,
   * through the first terminal state event, called on_done exactly once and on that event, and left neither a queue
   * on the bus nor a subscription in the table; whether callbacks returned or raised makes no difference.
   */
  lemma FinishedWatch(cfg: Config, acts: seq<Callbacks.Action>, s: Registry, id: SubId)
    requires ReachableBy(cfg, acts, s) && id in s.watches && s.watches[id].stage == Ended(true)
    ensures FinishedRight(s, id)
  {
    hide Inv, FinishedRight, ReachableBy;
    ReachableInv(cfg, acts, s);
    FinishedIsRight(s, id);
  }

  lemma TakenOfHeard(b: Bus, q: QueueId)
    requires QueueOk(b, q) && b.tickets[q].since == Some(0)
    ensures b.tickets[q].pruned + |b.taken[q]| + |b.queues[q]| == |b.heard[q]|
    ensures b.taken[q] == b.heard[q][b.tickets[q].pruned..b.tickets[q].pruned + |b.taken[q]|]
    ensures b.queues[q] == b.heard[q][b.tickets[q].pruned + |b.taken[q]|..]
  {
    var cut, n, all := b.tickets[q].pruned, |b.taken[q]|, b.taken[q] + b.queues[q];
    assert CutOf(b.tickets[q]) == cut;
    assert b.taken[q] == all[..n] && b.queues[q] == all[n..];
    assert all[n..] == b.heard[q][cut + n..];
  }

  function DoneCalls(calls: seq<Call>): nat {
    if calls == [] then 0 else (if calls[0].OnDone? then 1 else 0) + DoneCalls(calls[1..])
  }

  lemma {:induction false} EventCallsHaveNoDone(onEvent: bool, es: seq<Event>)
    ensures DoneCalls(EventCalls(onEvent, es)) == 0
  {
    if onEvent && es != [] {
      EventCallsHaveNoDone(onEvent, es[1..]);
      assert EventCalls(true, es)[1..] == EventCalls(true, es[1..]);
    }
  }

  lemma {:induction false} DoneCallsSnoc(calls: seq<Call>, c: Call)
    ensures DoneCalls(calls + [c]) == DoneCalls(calls) + if c.OnDone? then 1 else 0
  {
    if calls == [] {
      assert calls + [c] == [c];
    } else {
      assert (calls + [c])[1..] == calls[1..] + [c];
      DoneCallsSnoc(calls[1..], c);
    }
  }

  /** In every state, interrupted watches included: on_done at most once, never unasked, only at a terminal event. */
  lemma DoneAtMostOnce(cfg: Config, acts: seq<Callbacks.Action>, s: Registry, id: SubId)
    requires ReachableBy(cfg, acts, s) && id in s.watches
    ensures
      var w := s.watches[id];
      && w.queue in s.bus.taken
      && DoneCalls(w.calls) <= (if w.onDone then 1 else 0)
      && (s.watches[id].stage == Ended(true) && w.onDone ==> DoneCalls(w.calls) == 1)
      && (DoneCalls(w.calls) == 1 ==> EndsAtTerminal(s.bus.taken[w.queue]))
  {
    hide Inv;
    ReachableInv(cfg, acts, s);
    WatchFacts(s, id);
    var w := s.watches[id];
    var es := s.bus.taken[w.queue];
    EventCallsHaveNoDone(w.onEvent, es);
    if es != [] {
      DoneCallsSnoc(EventCalls(w.onEvent, es), OnDone(es[|es| - 1]));
      assert EventCalls(w.onEvent, es) + [] == EventCalls(w.onEvent, es);
    }
  }

  // ---------------------------------------------------------------- getting to the end

  /** A step of the watch's own: it runs on, or a callback comes back, normally or with an Exception. */
  predicate OwnStep(s: Registry, id: SubId, a: Callbacks.Action) {
    Callbacks.Enabled(s, a) && (a == Advance(id) || a == Return(id, Returned) || a == Return(id, Raised))
  }

  function WorkLeft(s: Registry, id: SubId): nat
    requires id in s.watches && s.watches[id].queue in s.bus.queues
  {
    var w := s.watches[id];
    3 * |s.bus.queues[w.queue]|
    + match w.stage
      case Created => 1
      case Getting => 0
      case InEvent(_) => 2
      case InDone(_) => 1
      case Ended(_) => 0
  }

  /** Watch id is at `stage`, uncancelled, with n events waiting. */
  ghost predicate Standing(s: Registry, id: SubId, stage: Stage, n: nat) {
    && id in s.watches && s.watches[id].stage == stage && !s.watches[id].cancelled
    && s.watches[id].queue in s.bus.queues && |s.bus.queues[s.watches[id].queue]| == n
  }

  lemma UnsubscribeKeepsQueues(b: Bus, r: RunId, q: QueueId)
    ensures Events.Next(b, Unsubscribe(r, q)).queues == b.queues
  {
  }

  lemma AfterEventMovesOn(s: Registry, id: SubId, w: Watch, e: Event)
    requires !w.cancelled && w.queue in s.bus.queues
    ensures var n := |s.bus.queues[w.queue]|;
            || Standing(AfterEvent(s, id, w, e), id, Getting, n)
            || Standing(AfterEvent(s, id, w, e), id, InDone(e), n)
            || Standing(AfterEvent(s, id, w, e), id, Ended(true), n)
  {
    hide Without, Events.Next;
    UnsubscribeKeepsQueues(s.bus, w.run, w.queue);
  }

  lemma DeliverMovesOn(s: Registry, id: SubId, w: Watch)
    requires !w.cancelled && Events.Enabled(s.bus, Take(w.queue))
    ensures var n := |s.bus.queues[w.queue]| - 1;
            exists stage :: Standing(Deliver(s, id, w), id, stage, n) && stage != Ended(false) && stage != Created
  {
    var e := s.bus.queues[w.queue][0];
    var s1 := s.(bus := Events.Next(s.bus, Take(w.queue)));
    AfterEventMovesOn(s1, id, w, e);
    hide AfterEvent;
    if w.onEvent {
      assert Standing(Deliver(s, id, w), id, InEvent(e), |s.bus.queues[w.queue]| - 1);
    } else {
      assert Deliver(s, id, w) == AfterEvent(s1, id, w, e);
    }
  }

  lemma WatchedQueueIsOpen(s: Registry, id: SubId)
    requires Inv(s) && id in s.watches
    ensures s.watches[id].queue in s.bus.queues
  {
    hide BusOk, CallsFit, Unheard;
    assert WatchOk(s.bus, id in s.subs, s.watches[id]);
  }

  lemma EndMovesOn(s: Registry, id: SubId, w: Watch)
    requires !w.cancelled && w.queue in s.bus.queues
    ensures Standing(End(s, id, w, true), id, Ended(true), |s.bus.queues[w.queue]|)
  {
    hide Without, Events.Next;
    UnsubscribeKeepsQueues(s.bus, w.run, w.queue);
  }

  /** Each own step leaves less work, so a watch takes at most WorkLeft of them before more is published. */
  lemma OwnStepsRunOut(s: Registry, id: SubId, a: Callbacks.Action)
    requires Inv(s) && id in s.watches && OwnStep(s, id, a)
    ensures
      var t := Callbacks.Next(s, a);
      && id in t.watches && t.watches[id].queue in t.bus.queues && s.watches[id].queue in s.bus.queues
      && WorkLeft(t, id) < WorkLeft(s, id)
      && !t.watches[id].cancelled && t.watches[id].stage != Ended(false)
  {
    hide Inv, WatchOk, Without, Deliver, AfterEvent, End, Events.Next, IsTerminal;
    WatchedQueueIsOpen(s, id);
    var w := s.watches[id];
    if a.Return? && w.stage.InEvent? {
      AfterEventMovesOn(s, id, w, w.stage.e);
    } else if a.Advance? && w.stage.Getting? {
      DeliverMovesOn(s, id, w);
    } else if a.Return? {
      EndMovesOn(s, id, w);
    }
  }

  /** An uncancelled watch with nothing left to do of its own. */
  ghost predicate Stopped(s: Registry, id: SubId) {
    && id in s.watches && !s.watches[id].cancelled && s.watches[id].stage != Ended(false)
    && forall a :: !OwnStep(s, id, a)
  }

  lemma StoppedIsFinished(s: Registry, id: SubId)
    requires Inv(s) && Stopped(s, id)
    ensures
      var w := s.watches[id];
      && w.queue in s.bus.heard && w.queue in s.bus.tickets
      && (w.stage == Ended(true)
          <==> exists k :: FirstTerminal(s.bus.heard[w.queue], s.bus.tickets[w.queue].pruned, k))
  {
    hide Inv;
    WatchFacts(s, id);
    var w := s.watches[id];
    if w.stage == Ended(true) {
      FinishedIsRight(s, id);
    } else {
      assert !OwnStep(s, id, Advance(id)) && !OwnStep(s, id, Return(id, Returned));
      assert w.stage.Getting? && s.bus.queues[w.queue] == [];
      TakenOfHeard(s.bus, w.queue);
      var heard, cut, es := s.bus.heard[w.queue], s.bus.tickets[w.queue].pruned, s.bus.taken[w.queue];
      assert es == heard[cut..|heard|] && NoTerminal(es);
      forall k: nat ensures !FirstTerminal(heard, cut, k) {
        if cut <= k < |heard| { assert heard[k] == es[k - cut]; }
      }
    }
  }

  /**
   * A watch nobody cancels, whose callbacks return or raise an Exception, stops only at its end or waiting on an
   * empty queue; and when it has stopped, it has finished if and only if a terminal state event reached it.
   */
  lemma StoppedWatch(cfg: Config, acts: seq<Callbacks.Action>, s: Registry, id: SubId)
    requires ReachableBy(cfg, acts, s) && Stopped(s, id)
    ensures
      var w := s.watches[id];
      && w.queue in s.bus.heard && w.queue in s.bus.tickets
      && (w.stage == Ended(true)
          <==> exists k :: FirstTerminal(s.bus.heard[w.queue], s.bus.tickets[w.queue].pruned, k))
  {
    hide Inv, FirstTerminal, ReachableBy, Stopped;
    ReachableInv(cfg, acts, s);
    StoppedIsFinished(s, id);
  }
}
