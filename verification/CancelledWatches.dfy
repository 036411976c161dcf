/** A cancelled watch makes no more calls, and if a callback swallows the cancellation, none on later events. */
module CancelledWatches {
  import opened Basics
  import opened Events
  import opened Callbacks
  import R = CallbackResults

  /** Nothing is delivered to the watch's queue any more. */
  ghost predicate Deaf(s: Registry, id: SubId, q: QueueId) {
    id in s.watches && s.watches[id].queue == q && DeafQueue(s.bus, q)
  }

  ghost predicate DeafQueue(b: Bus, q: QueueId) {
    q in b.queues && q in b.heard && Unheard(b, q)
  }

  // ---------------------------------------------------------------- no calls

  predicate SameCalls(s: Registry, t: Registry, id: SubId) {
    && id in s.watches && id in t.watches && t.watches[id].calls == s.watches[id].calls
    && (Over(s, id) ==> Over(t, id))
  }

  lemma {:induction false} CancelAllMakesNoCalls(s: Registry, ids: seq<SubId>, id: SubId)
    requires id in s.watches
    ensures SameCalls(s, CancelAll(s, ids), id)
    decreases |ids|
  {
    hide Events.Next;
    if ids != [] { CancelAllMakesNoCalls(CancelWatch(s, ids[0]), ids[1..], id); }
  }

  lemma OverMakesNoCalls(s: Registry, a: Callbacks.Action, id: SubId)
    requires Callbacks.Enabled(s, a) && Over(s, id) && a != Swallow(id)
    ensures SameCalls(s, Callbacks.Next(s, a), id)
  {
    hide Events.Next, Without, ElemsOf, CancelAll, Watched;
    if a.Close? { CancelAllMakesNoCalls(s.(subs := []), s.subs, id); }
  }

  lemma {:induction false} OverStaysSilent(s: Registry, acts: seq<Callbacks.Action>, id: SubId)
    requires R.Legal(s, acts) && Over(s, id) && Swallow(id) !in acts
    ensures SameCalls(s, R.Exec(s, acts), id)
    decreases |acts|
  {
    hide Callbacks.Next, Callbacks.Enabled;
    if acts != [] {
      OverMakesNoCalls(s, acts[0], id);
      OverStaysSilent(Callbacks.Next(s, acts[0]), acts[1..], id);
    }
  }

  /** From its cancellation on, a watch calls nothing, unless a callback under way swallows the cancellation. */
  lemma CancelledWatchIsSilent(
    cfg: Config, before: seq<Callbacks.Action>, s: Registry, id: SubId, after: seq<Callbacks.Action>, t: Registry)
    requires R.ReachableBy(cfg, before, s) && Over(s, id)
    requires R.Legal(s, after) && t == R.Exec(s, after) && Swallow(id) !in after
    ensures id in t.watches && t.watches[id].calls == s.watches[id].calls
  {
    OverStaysSilent(s, after, id);
  }

  // ---------------------------------------------------------------- no later events

  lemma {:induction false} WithoutFirstIn(qs: seq<QueueId>, q: QueueId, p: QueueId)
    ensures p in WithoutFirst(qs, q) ==> p in qs
  {
    if qs != [] { WithoutFirstIn(qs[1..], q, p); }
  }

  lemma BusStaysDeaf(b: Bus, x: Events.Action, q: QueueId)
    requires Events.Enabled(b, x) && DeafQueue(b, q)
    ensures DeafQueue(Events.Next(b, x), q) && Events.Next(b, x).heard[q] == b.heard[q]
  {
    hide Prune, Replay;
    var t := Events.Next(b, x);
    if x.Unsubscribe? { WithoutFirstIn(Subscribers(b, x.r), x.q, q); }
    forall r ensures q !in Subscribers(t, r) {
      assert q !in Subscribers(b, r);
    }
  }

  lemma CancelStaysDeaf(s: Registry, other: SubId, id: SubId, q: QueueId)
    requires Deaf(s, id, q)
    ensures Deaf(CancelWatch(s, other), id, q) && CancelWatch(s, other).bus.heard[q] == s.bus.heard[q]
  {
    hide Events.Next, DeafQueue;
    if other in s.watches { BusStaysDeaf(s.bus, Unsubscribe(s.watches[other].run, s.watches[other].queue), q); }
  }

  lemma {:induction false} CancelAllStaysDeaf(s: Registry, ids: seq<SubId>, id: SubId, q: QueueId)
    requires Deaf(s, id, q)
    ensures Deaf(CancelAll(s, ids), id, q) && CancelAll(s, ids).bus.heard[q] == s.bus.heard[q]
    decreases |ids|
  {
    hide CancelWatch, Deaf;
    if ids != [] {
      CancelStaysDeaf(s, ids[0], id, q);
      CancelAllStaysDeaf(CancelWatch(s, ids[0]), ids[1..], id, q);
    }
  }

  lemma EndStaysDeaf(s: Registry, other: SubId, w: Watch, finished: bool, id: SubId, q: QueueId)
    requires Deaf(s, id, q) && (other == id ==> w.queue == q)
    ensures Deaf(End(s, other, w, finished), id, q) && End(s, other, w, finished).bus.heard[q] == s.bus.heard[q]
  {
    hide Events.Next, Without, DeafQueue;
    BusStaysDeaf(s.bus, Unsubscribe(w.run, w.queue), q);
  }

  lemma AfterEventStaysDeaf(s: Registry, other: SubId, w: Watch, e: Event, id: SubId, q: QueueId)
    requires Deaf(s, id, q) && (other == id ==> w.queue == q)
    ensures Deaf(AfterEvent(s, other, w, e), id, q) && AfterEvent(s, other, w, e).bus.heard[q] == s.bus.heard[q]
  {
    hide End, DeafQueue;
    EndStaysDeaf(s, other, w, true, id, q);
  }

  lemma DeliverStaysDeaf(s: Registry, other: SubId, w: Watch, id: SubId, q: QueueId)
    requires Deaf(s, id, q) && (other == id ==> w.queue == q) && Events.Enabled(s.bus, Take(w.queue))
    ensures Deaf(Deliver(s, other, w), id, q) && Deliver(s, other, w).bus.heard[q] == s.bus.heard[q]
  {
    hide Events.Next, AfterEvent, DeafQueue;
    BusStaysDeaf(s.bus, Take(w.queue), q);
    AfterEventStaysDeaf(s.(bus := Events.Next(s.bus, Take(w.queue))), other, w, s.bus.queues[w.queue][0], id, q);
  }

  lemma StaysDeaf(s: Registry, a: Callbacks.Action, id: SubId, q: QueueId)
    requires Callbacks.Enabled(s, a) && Deaf(s, id, q)
    ensures Deaf(Callbacks.Next(s, a), id, q) && Callbacks.Next(s, a).bus.heard[q] == s.bus.heard[q]
  {
    hide Events.Next, CancelWatch, CancelAll, End, AfterEvent, Deliver, Without, ElemsOf, Watched, DeafQueue;
    match a {
      case BusStep(x) => { BusStaysDeaf(s.bus, x, q); }
      case Register(_, r, p, _, _) => { BusStaysDeaf(s.bus, Subscribe(r, p, Some(0)), q); }
      case Unregister(other) => { CancelStaysDeaf(s.(subs := Without(s.subs, other)), other, id, q); }
      case Close => { CancelAllStaysDeaf(s.(subs := []), s.subs, id, q); }
      case RunScheduled(other) => { CancelStaysDeaf(s, other, id, q); }
      case Advance(other) => {
        if s.watches[other].stage.Getting? { DeliverStaysDeaf(s, other, s.watches[other], id, q); }
      }
      case Return(other, how) => {
        var w := s.watches[other];
        EndStaysDeaf(s, other, w, how != RaisedCancelled, id, q);
        if w.stage.InEvent? { AfterEventStaysDeaf(s, other, w, w.stage.e, id, q); }
      }
      case Interrupt(other) => { EndStaysDeaf(s, other, s.watches[other], false, id, q); }
      case _ => {}
    }
  }

  lemma {:induction false} ExecStaysDeaf(s: Registry, acts: seq<Callbacks.Action>, id: SubId, q: QueueId)
    requires R.Legal(s, acts) && Deaf(s, id, q) && Inv(s)
    ensures Deaf(R.Exec(s, acts), id, q) && R.Exec(s, acts).bus.heard[q] == s.bus.heard[q] && Inv(R.Exec(s, acts))
    decreases |acts|
  {
    hide Callbacks.Next, Callbacks.Enabled, Deaf, Inv;
    if acts != [] {
      StaysDeaf(s, acts[0], id, q);
      Callbacks.NextKeepsInv(s, acts[0]);
      ExecStaysDeaf(Callbacks.Next(s, acts[0]), acts[1..], id, q);
    }
  }

  lemma OverIsDeaf(s: Registry, id: SubId)
    requires Inv(s) && Over(s, id)
    ensures Deaf(s, id, s.watches[id].queue)
  {
    hide BusOk, CallsFit;
    R.WatchFacts(s, id);
  }

  lemma CallsAreOnTaken(w: Watch, es: seq<Event>, c: Call)
    requires CallsFit(w, es) && c in w.calls
    ensures c.e in es
  {
  }

  /** Whatever callbacks do with it, a watch makes no call on an event published after its cancellation. */
  lemma CancelledWatchHearsNoMore(
    cfg: Config, before: seq<Callbacks.Action>, s: Registry, id: SubId, after: seq<Callbacks.Action>, t: Registry)
    requires R.ReachableBy(cfg, before, s) && Over(s, id)
    requires R.Legal(s, after) && t == R.Exec(s, after)
    ensures s.watches[id].queue in s.bus.heard && id in t.watches
    ensures forall c :: c in t.watches[id].calls ==> c.e in s.bus.heard[s.watches[id].queue]
  {
    hide Inv, R.ReachableBy, DeafQueue, CallsFit, R.Legal, R.Exec;
    R.ReachableInv(cfg, before, s);
    OverIsDeaf(s, id);
    var q := s.watches[id].queue;
    HeardByDeaf(s.bus, q);
    ExecStaysDeaf(s, after, id, q);
    R.WatchFacts(t, id);
    R.TakenOfHeard(t.bus, q);
    forall c | c in t.watches[id].calls ensures c.e in s.bus.heard[q] {
      CallsAreOnTaken(t.watches[id], t.bus.taken[q], c);
    }
  }

  lemma HeardByDeaf(b: Bus, q: QueueId)
    requires DeafQueue(b, q)
    ensures q in b.heard
  {
  }
}
