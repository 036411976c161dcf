/** Callback watches over the event bus: registered, fed event by event, ended by a terminal event or from outside. */
module Callbacks {
  import opened Basics
  import opened Events

  type SubId = string

  datatype Call = OnEvent(e: Event) | OnDone(e: Event)

  /** Where a watch task is suspended. `finished` says whether it ended on a terminal event or was interrupted. */
  datatype Stage = Created | Getting | InEvent(e: Event) | InDone(e: Event) | Ended(finished: bool)

  /** A watch task: what it was given, whether task.cancel() is pending, and the callbacks it has called so far. */
  datatype Watch = Watch(
    run: RunId, queue: QueueId, onEvent: bool, onDone: bool, cancelled: bool, stage: Stage, calls: seq<Call>)

  /** `scheduled` are the watches whose cancellation another thread has asked the loop to run later. */
  datatype Registry = Registry(bus: Bus, subs: seq<SubId>, scheduled: set<SubId>, watches: map<SubId, Watch>)

  /** How a callback comes back: the code treats a return and an Exception alike; CancelledError is neither. */
  datatype Outcome = Returned | Raised | RaisedCancelled

  datatype Action =
    | BusStep(a: Events.Action)
    | Register(id: SubId, r: RunId, q: QueueId, onEvent: bool, onDone: bool)
    | Unregister(id: SubId)
    | Close
    | UnregisterOffLoop(id: SubId)
    | CloseOffLoop
    | RunScheduled(id: SubId)
    | Advance(id: SubId)
    | Return(id: SubId, how: Outcome)
    | Swallow(id: SubId)
    | Interrupt(id: SubId)

  predicate Watched(s: Registry, q: QueueId) {
    exists id :: id in s.watches && s.watches[id].queue == q
  }

  /** Others may do anything to the bus but leave the queues of watches alone: nobody else holds them. */
  predicate Enabled(s: Registry, a: Action) {
    match a
    case BusStep(x) =>
      && Events.Enabled(s.bus, x)
      && (x.Unsubscribe? || x.Take? ==> !Watched(s, x.q))
    case Register(id, _, q, _, _) => id !in s.watches && q !in s.bus.queues
    case RunScheduled(id) => id in s.scheduled
    case Advance(id) =>
      && id in s.watches && !s.watches[id].cancelled
      && (s.watches[id].stage.Created?
          || (s.watches[id].stage.Getting? && Events.Enabled(s.bus, Take(s.watches[id].queue))))
    case Return(id, _) =>
      id in s.watches && !s.watches[id].cancelled && (s.watches[id].stage.InEvent? || s.watches[id].stage.InDone?)
    case Swallow(id) =>
      id in s.watches && s.watches[id].cancelled && (s.watches[id].stage.InEvent? || s.watches[id].stage.InDone?)
    case Interrupt(id) => id in s.watches && s.watches[id].cancelled && !s.watches[id].stage.Ended?
    case _ => true
  }

  function Without(ids: seq<SubId>, id: SubId): seq<SubId> {
    if ids == [] then [] else (if ids[0] == id then [] else [ids[0]]) + Without(ids[1..], id)
  }

  function ElemsOf(ids: seq<SubId>): set<SubId> {
    set id | id in ids
  }

  function Put(s: Registry, id: SubId, w: Watch): Registry {
    s.(watches := s.watches[id := w])
  }

  /** The finally clause. */
  function End(s: Registry, id: SubId, w: Watch, finished: bool): Registry {
    s.(bus := Events.Next(s.bus, Unsubscribe(w.run, w.queue)),
       subs := Without(s.subs, id),
       watches := s.watches[id := w.(stage := Ended(finished))])
  }

  /** The rest of the loop body once on_event is over, or was not asked for. */
  function AfterEvent(s: Registry, id: SubId, w: Watch, e: Event): Registry {
    if !IsTerminal(e) then Put(s, id, w.(stage := Getting))
    else if w.onDone then Put(s, id, w.(stage := InDone(e), calls := w.calls + [OnDone(e)]))
    else End(s, id, w, true)
  }

  function Deliver(s: Registry, id: SubId, w: Watch): Registry
    requires Events.Enabled(s.bus, Take(w.queue))
  {
    var e := s.bus.queues[w.queue][0];
    var s1 := s.(bus := Events.Next(s.bus, Take(w.queue)));
    if w.onEvent then Put(s1, id, w.(stage := InEvent(e), calls := w.calls + [OnEvent(e)]))
    else AfterEvent(s1, id, w, e)
  }

  /** task.cancel() and the unsubscription beside it. */
  function CancelWatch(s: Registry, id: SubId): Registry {
    if id !in s.watches then s
    else
      var w := s.watches[id];
      s.(bus := Events.Next(s.bus, Unsubscribe(w.run, w.queue)),
         watches := s.watches[id := w.(cancelled := w.cancelled || !w.stage.Ended?)])
  }

  function CancelAll(s: Registry, ids: seq<SubId>): Registry
    decreases |ids|
  {
    if ids == [] then s else CancelAll(CancelWatch(s, ids[0]), ids[1..])
  }

  function Next(s: Registry, a: Action): Registry
    requires Enabled(s, a)
  {
    match a
    case BusStep(x) => s.(bus := Events.Next(s.bus, x))
    case Register(id, r, q, onEvent, onDone) =>
      Registry(Events.Next(s.bus, Subscribe(r, q, Some(0))), s.subs + [id], s.scheduled,
               s.watches[id := Watch(r, q, onEvent, onDone, false, Created, [])])
    case Unregister(id) =>
      if id in s.subs then CancelWatch(s.(subs := Without(s.subs, id)), id) else s
    case Close => CancelAll(s.(subs := []), s.subs)
    case UnregisterOffLoop(id) =>
      if id in s.subs then s.(subs := Without(s.subs, id), scheduled := s.scheduled + {id}) else s
    case CloseOffLoop => s.(subs := [], scheduled := s.scheduled + ElemsOf(s.subs))
    case RunScheduled(id) => CancelWatch(s, id).(scheduled := s.scheduled - {id})
    case Advance(id) =>
      var w := s.watches[id];
      if w.stage.Created? then Put(s, id, w.(stage := Getting)) else Deliver(s, id, w)
    case Return(id, how) =>
      var w := s.watches[id];
      if how == RaisedCancelled then End(s, id, w, false)
      else if w.stage.InEvent? then AfterEvent(s, id, w, w.stage.e)
      else End(s, id, w, true)
    case Swallow(id) => Put(s, id, s.watches[id].(cancelled := false))
    case Interrupt(id) => End(s, id, s.watches[id], false)
  }

  // ---------------------------------------------------------------- what always holds

  ghost predicate NoTerminal(es: seq<Event>) {
    forall i :: 0 <= i < |es| ==> !IsTerminal(es[i])
  }

  function EventCalls(onEvent: bool, es: seq<Event>): seq<Call> {
    if onEvent then seq(|es|, i requires 0 <= i < |es| => OnEvent(es[i])) else []
  }

  /** es ends with its first terminal state event. */
  ghost predicate EndsAtTerminal(es: seq<Event>) {
    es != [] && IsTerminal(es[|es| - 1]) && NoTerminal(es[..|es| - 1])
  }

  function DoneCall(w: Watch, es: seq<Event>): seq<Call>
    requires es != []
  {
    if w.onDone then [OnDone(es[|es| - 1])] else []
  }

  /** The callbacks called so far follow from the events taken so far and the stage. */
  ghost predicate CallsFit(w: Watch, es: seq<Event>) {
    match w.stage
    case Created => es == [] && w.calls == []
    case Getting => NoTerminal(es) && w.calls == EventCalls(w.onEvent, es)
    case InEvent(e) =>
      es != [] && es[|es| - 1] == e && w.onEvent && NoTerminal(es[..|es| - 1]) && w.calls == EventCalls(true, es)
    case InDone(e) =>
      && EndsAtTerminal(es) && es[|es| - 1] == e && w.onDone
      && w.calls == EventCalls(w.onEvent, es) + DoneCall(w, es)
    case Ended(true) => EndsAtTerminal(es) && w.calls == EventCalls(w.onEvent, es) + DoneCall(w, es)
    case Ended(false) =>
      || (w.calls == EventCalls(w.onEvent, es) && (es == [] || NoTerminal(es[..|es| - 1])))
      || (EndsAtTerminal(es) && w.calls == EventCalls(w.onEvent, es) + DoneCall(w, es))
  }

  ghost predicate Unheard(b: Bus, q: QueueId) {
    forall r :: q !in Subscribers(b, r)
  }

  /** `listed` says whether the watch's subscription is still in the registry's table. */
  ghost predicate Held(b: Bus, listed: bool, w: Watch) {
    && w.queue in b.queues && w.queue in b.tickets && w.queue in b.taken
    && b.tickets[w.queue].run == w.run && b.tickets[w.queue].since == Some(0)
    && (w.cancelled || w.stage.Ended? ==> !listed && Unheard(b, w.queue))
  }

  ghost predicate WatchOk(b: Bus, listed: bool, w: Watch) {
    Held(b, listed, w) && CallsFit(w, b.taken[w.queue])
  }

  ghost predicate DistinctQueues(watches: map<SubId, Watch>) {
    forall i, j :: i in watches && j in watches && watches[i].queue == watches[j].queue ==> i == j
  }

  ghost predicate Inv(s: Registry) {
    && BusOk(s.bus)
    && (forall id :: id in s.watches ==> WatchOk(s.bus, id in s.subs, s.watches[id]))
    && (forall id :: id in s.subs ==> id in s.watches) && NoDups(s.subs)
    && (forall id :: id in s.scheduled ==> id in s.watches && id !in s.subs)
    && DistinctQueues(s.watches)
  }

  /** Everything but that watch id's calls match what it has taken: where its stretch of code is under way. */
  ghost predicate InvBut(s: Registry, id: SubId) {
    && BusOk(s.bus)
    && id in s.watches && Held(s.bus, id in s.subs, s.watches[id])
    && (forall x :: x in s.watches && x != id ==> WatchOk(s.bus, x in s.subs, s.watches[x]))
    && (forall x :: x in s.subs ==> x in s.watches) && NoDups(s.subs)
    && (forall x :: x in s.scheduled ==> x in s.watches && x !in s.subs)
    && DistinctQueues(s.watches)
  }

  lemma InvIsInvBut(s: Registry, id: SubId)
    requires Inv(s) && id in s.watches
    ensures InvBut(s, id) && CallsFit(s.watches[id], s.bus.taken[s.watches[id].queue])
  {
    hide BusOk, CallsFit, Unheard;
    assert WatchOk(s.bus, id in s.subs, s.watches[id]);
  }

  /** task.cancel() is pending for the watch. */
  predicate Cancelled(s: Registry, id: SubId) {
    id in s.watches && s.watches[id].cancelled
  }

  /** Or it has ended. */
  predicate Over(s: Registry, id: SubId) {
    id in s.watches && (s.watches[id].cancelled || s.watches[id].stage.Ended?)
  }

  lemma ListedIsUncancelled(s: Registry, id: SubId)
    requires Inv(s) && id in s.subs
    ensures id in s.watches && !s.watches[id].cancelled && !s.watches[id].stage.Ended?
  {
    hide BusOk, CallsFit, Unheard;
    assert WatchOk(s.bus, id in s.subs, s.watches[id]);
  }

  /** Cancelling a watch that runs leaves it cancelled, whatever happens to the others. */
  lemma {:induction false} CancelAllMarks(s: Registry, ids: seq<SubId>, id: SubId)
    requires id in s.watches && !s.watches[id].stage.Ended?
    ensures id in CancelAll(s, ids).watches && !CancelAll(s, ids).watches[id].stage.Ended?
    ensures id in ids || s.watches[id].cancelled ==> CancelAll(s, ids).watches[id].cancelled
    ensures CancelAll(s, ids).subs == s.subs
    decreases |ids|
  {
    hide Events.Next;
    if ids != [] { CancelAllMarks(CancelWatch(s, ids[0]), ids[1..], id); }
  }

  // ---------------------------------------------------------------- one step of the bus

  /** What a bus step not touching queue q leaves true of a watch on q. */
  lemma BusStepKeepsWatch(b: Bus, x: Events.Action, listed: bool, w: Watch)
    requires BusOk(b) && Events.Enabled(b, x) && WatchOk(b, listed, w)
    requires (x.Unsubscribe? || x.Take? || x.Subscribe?) ==> x.q != w.queue
    ensures WatchOk(Events.Next(b, x), listed, w)
  {
    hide CallsFit, NoDups;
    if x.Unsubscribe? { UnsubscribeOk(b, x.r, x.q); SubscribersShrink(b, x); }
    hide BusOk;
    var t := Events.Next(b, x);
    assert t.taken[w.queue] == b.taken[w.queue];
    if w.cancelled || w.stage.Ended? {
      forall r ensures w.queue !in Subscribers(t, r) {
        assert w.queue !in Subscribers(b, r);
      }
    }
  }

  lemma SubscribersShrink(b: Bus, x: Events.Action)
    requires BusOk(b) && x.Unsubscribe?
    ensures forall r, p :: p in Subscribers(Events.Next(b, x), r) ==> p in Subscribers(b, r)
  {
    UnsubscribeOk(b, x.r, x.q);
    assert NoDups(Subscribers(b, x.r));
    WithoutFirstFacts(Subscribers(b, x.r), x.q);
  }

  /** Unsubscribing a watch's own queue leaves it unheard and the rest of the watch as it was. */
  lemma UnsubscribeOwn(b: Bus, listed: bool, w: Watch)
    requires BusOk(b) && Held(b, listed, w)
    ensures var t := Events.Next(b, Unsubscribe(w.run, w.queue));
            BusOk(t) && Unheard(t, w.queue) && t.taken == b.taken && t.tickets == b.tickets && t.queues == b.queues
  {
    hide CallsFit;
    var t := Events.Next(b, Unsubscribe(w.run, w.queue));
    UnsubscribeOk(b, w.run, w.queue);
    SubscribersShrink(b, Unsubscribe(w.run, w.queue));
    forall r ensures w.queue !in Subscribers(t, r) {
      assert w.queue in Subscribers(b, r) ==> StreamOk(b, r, w.queue);
    }
  }

  lemma {:induction false} WithoutFacts(ids: seq<SubId>, id: SubId)
    ensures forall x :: x in Without(ids, id) <==> x in ids && x != id
    ensures NoDups(ids) ==> NoDups(Without(ids, id))
  {
    if ids != [] {
      WithoutFacts(ids[1..], id);
      if NoDups(ids) {
        assert NoDups(ids[1..]) && ids[0] !in ids[1..];
        var rest := Without(ids[1..], id);
        assert ids[0] !in rest;
        assert NoDups([ids[0]] + rest);
      }
    }
  }

  lemma {:induction false} WithoutAbsentId(ids: seq<SubId>, id: SubId)
    requires id !in ids
    ensures Without(ids, id) == ids
  {
    if ids != [] { WithoutAbsentId(ids[1..], id); }
  }

  lemma EventCallsSnoc(onEvent: bool, es: seq<Event>, e: Event)
    ensures EventCalls(onEvent, es + [e]) == EventCalls(onEvent, es) + if onEvent then [OnEvent(e)] else []
  {
  }

  // ---------------------------------------------------------------- one step of the registry

  /** If only watch id changes, to something right, and the other watches are still right, the registry is. */
  lemma OneWatchChanges(s: Registry, id: SubId, t: Registry)
    requires InvBut(s, id) && BusOk(t.bus)
    requires id in t.watches && t.watches == s.watches[id := t.watches[id]]
    requires t.watches[id].queue == s.watches[id].queue
    requires (t.subs == s.subs || t.subs == Without(s.subs, id)) && t.scheduled == s.scheduled
    requires WatchOk(t.bus, id in t.subs, t.watches[id])
    requires forall x :: x in s.watches && x != id ==> WatchOk(t.bus, x in s.subs, s.watches[x])
    ensures Inv(t)
  {
    hide WatchOk, Held, BusOk, Without, NoDups, CallsFit, Unheard, Events.Next;
    WithoutFacts(s.subs, id);
    forall x | x in t.watches ensures WatchOk(t.bus, x in t.subs, t.watches[x]) {
      if x != id { assert WatchOk(t.bus, x in s.subs, s.watches[x]); }
    }
  }

  lemma OthersKeep(s: Registry, id: SubId, x: Events.Action)
    requires InvBut(s, id) && Events.Enabled(s.bus, x)
    requires (x.Unsubscribe? || x.Take?) && x.q == s.watches[id].queue
    ensures forall i :: i in s.watches && i != id ==> WatchOk(Events.Next(s.bus, x), i in s.subs, s.watches[i])
  {
    hide WatchOk, Held, BusOk, Events.Next, Events.Enabled;
    forall i | i in s.watches && i != id ensures WatchOk(Events.Next(s.bus, x), i in s.subs, s.watches[i]) {
      assert s.watches[i].queue != x.q;
      BusStepKeepsWatch(s.bus, x, i in s.subs, s.watches[i]);
    }
  }

  /** w is watch id with its stage, flag or calls changed; a pending cancellation may only have been dropped. */
  ghost predicate SameWatch(s: Registry, id: SubId, w: Watch) {
    && id in s.watches && w.queue in s.bus.taken
    && w.queue == s.watches[id].queue && w.run == s.watches[id].run
    && (w.cancelled ==> s.watches[id].cancelled)
  }

  lemma EndKeepsInv(s: Registry, id: SubId, w: Watch, finished: bool)
    requires InvBut(s, id) && SameWatch(s, id, w)
    requires CallsFit(w.(stage := Ended(finished)), s.bus.taken[w.queue])
    ensures Inv(End(s, id, w, finished))
  {
    var t := End(s, id, w, finished);
    UnsubscribeOwn(s.bus, id in s.subs, s.watches[id]);
    OthersKeep(s, id, Unsubscribe(w.run, w.queue));
    WithoutFacts(s.subs, id);
    hide BusOk, CallsFit, Unheard, Inv, Events.Next, Without;
    assert WatchOk(t.bus, id in t.subs, t.watches[id]);
    OneWatchChanges(s, id, t);
  }

  lemma PutKeepsInv(s: Registry, id: SubId, w: Watch)
    requires InvBut(s, id) && SameWatch(s, id, w)
    requires !w.stage.Ended? && CallsFit(w, s.bus.taken[w.queue])
    ensures Inv(Put(s, id, w))
  {
    hide BusOk, CallsFit, Unheard, Inv;
    OneWatchChanges(s, id, Put(s, id, w));
  }

  /** The events a watch has taken, the last being e, with on_event made for all of them and on_done for none. */
  ghost predicate EventDone(w: Watch, es: seq<Event>, e: Event) {
    es != [] && es[|es| - 1] == e && NoTerminal(es[..|es| - 1]) && w.calls == EventCalls(w.onEvent, es)
  }

  lemma AfterEventKeepsInv(s: Registry, id: SubId, w: Watch, e: Event)
    requires InvBut(s, id) && SameWatch(s, id, w)
    requires EventDone(w, s.bus.taken[w.queue], e)
    ensures Inv(AfterEvent(s, id, w, e))
  {
    hide InvBut, Inv, BusOk, Events.Next;
    var es := s.bus.taken[w.queue];
    if !IsTerminal(e) {
      PutKeepsInv(s, id, w.(stage := Getting));
    } else if w.onDone {
      PutKeepsInv(s, id, w.(stage := InDone(e), calls := w.calls + [OnDone(e)]));
    } else {
      assert w.calls + DoneCall(w, es) == w.calls;
      EndKeepsInv(s, id, w, true);
    }
  }

  lemma TakenByWatch(s: Registry, id: SubId)
    requires Inv(s) && id in s.watches && Events.Enabled(s.bus, Take(s.watches[id].queue))
    ensures InvBut(s.(bus := Events.Next(s.bus, Take(s.watches[id].queue))), id)
  {
    InvIsInvBut(s, id);
    var x := Take(s.watches[id].queue);
    OthersKeep(s, id, x);
    TakeOk(s.bus, x.q);
    hide BusOk, CallsFit, WatchOk;
    var t := Events.Next(s.bus, x);
    assert forall r :: Subscribers(t, r) == Subscribers(s.bus, r);
  }

  lemma DeliverKeepsInv(s: Registry, id: SubId)
    requires Inv(s) && id in s.watches && s.watches[id].stage.Getting?
    requires Events.Enabled(s.bus, Take(s.watches[id].queue))
    ensures Inv(Deliver(s, id, s.watches[id]))
  {
    InvIsInvBut(s, id);
    TakenByWatch(s, id);
    var w := s.watches[id];
    var e, es := s.bus.queues[w.queue][0], s.bus.taken[w.queue];
    var s1 := s.(bus := Events.Next(s.bus, Take(w.queue)));
    assert s1.bus.taken[w.queue] == es + [e];
    assert (es + [e])[..|es + [e]| - 1] == es;
    EventCallsSnoc(w.onEvent, es, e);
    hide InvBut, Inv, BusOk, Events.Next, EventCalls;
    if w.onEvent {
      PutKeepsInv(s1, id, w.(stage := InEvent(e), calls := w.calls + [OnEvent(e)]));
    } else {
      assert w.calls == w.calls + [];
      AfterEventKeepsInv(s1, id, w, e);
    }
  }

  lemma ReturnKeepsInv(s: Registry, id: SubId, how: Outcome)
    requires Inv(s) && Enabled(s, Return(id, how))
    ensures Inv(Next(s, Return(id, how)))
  {
    InvIsInvBut(s, id);
    assert WatchOk(s.bus, id in s.subs, s.watches[id]);
    hide InvBut, Inv, BusOk, Events.Next, EventCalls;
    var w := s.watches[id];
    if how == RaisedCancelled || w.stage.InDone? {
      EndKeepsInv(s, id, w, how != RaisedCancelled);
    } else {
      AfterEventKeepsInv(s, id, w, w.stage.e);
    }
  }

  lemma InterruptKeepsInv(s: Registry, id: SubId)
    requires Inv(s) && Enabled(s, Interrupt(id))
    ensures Inv(Next(s, Interrupt(id)))
  {
    InvIsInvBut(s, id);
    assert WatchOk(s.bus, id in s.subs, s.watches[id]);
    hide InvBut, Inv, BusOk, Events.Next;
    var w := s.watches[id];
    var es := s.bus.taken[w.queue];
    if es != [] && NoTerminal(es) { assert NoTerminal(es[..|es| - 1]); }
    EndKeepsInv(s, id, w, false);
  }

  // ---------------------------------------------------------------- registering and cancelling

  lemma NewWatchOk(b: Bus, r: RunId, q: QueueId, onEvent: bool, onDone: bool)
    requires BusOk(b) && q !in b.queues
    ensures WatchOk(Events.Next(b, Subscribe(r, q, Some(0))), true, Watch(r, q, onEvent, onDone, false, Created, []))
  {
  }

  /** Adding a watch on a queue of its own. */
  lemma OneWatchMore(s: Registry, bus: Bus, id: SubId, w: Watch)
    requires Inv(s) && id !in s.watches && BusOk(bus)
    requires WatchOk(bus, true, w)
    requires forall x :: x in s.watches ==> s.watches[x].queue != w.queue && WatchOk(bus, x in s.subs, s.watches[x])
    ensures Inv(Registry(bus, s.subs + [id], s.scheduled, s.watches[id := w]))
  {
    hide WatchOk, BusOk;
    NoDupsSnoc(s.subs, id);
    hide NoDups;
    var t := Registry(bus, s.subs + [id], s.scheduled, s.watches[id := w]);
    forall x | x in t.watches ensures WatchOk(t.bus, x in t.subs, t.watches[x]) {
      if x != id { assert x in t.subs <==> x in s.subs; }
    }
  }

  lemma RegisterKeepsInv(s: Registry, id: SubId, r: RunId, q: QueueId, onEvent: bool, onDone: bool)
    requires Inv(s) && id !in s.watches && q !in s.bus.queues
    ensures Inv(Next(s, Register(id, r, q, onEvent, onDone)))
  {
    SubscribeOk(s.bus, r, q, Some(0));
    NewWatchOk(s.bus, r, q, onEvent, onDone);
    hide BusOk, Unheard, CallsFit, Events.Next, NoDups, DistinctQueues;
    var bus := Events.Next(s.bus, Subscribe(r, q, Some(0)));
    forall x | x in s.watches
      ensures s.watches[x].queue != q && WatchOk(bus, x in s.subs, s.watches[x])
    {
      assert WatchOk(s.bus, x in s.subs, s.watches[x]);
      BusStepKeepsWatch(s.bus, Subscribe(r, q, Some(0)), x in s.subs, s.watches[x]);
    }
    hide WatchOk, Inv;
    OneWatchMore(s, bus, id, Watch(r, q, onEvent, onDone, false, Created, []));
  }

  lemma CancelledFits(w: Watch, es: seq<Event>, flag: bool)
    requires CallsFit(w, es)
    ensures CallsFit(w.(cancelled := flag), es)
  {
  }

  lemma CancelledHeld(b: Bus, listed: bool, w: Watch, flag: bool)
    requires BusOk(b) && WatchOk(b, listed, w)
    ensures WatchOk(Events.Next(b, Unsubscribe(w.run, w.queue)), false, w.(cancelled := flag))
  {
    CancelledFits(w, b.taken[w.queue], flag);
    UnsubscribeOwn(b, listed, w);
    hide BusOk, Unheard, CallsFit, Events.Next;
  }

  /** Cancelling a watch that has just been taken out of the table. */
  lemma CancelKeepsInv(s: Registry, id: SubId)
    requires Inv(s) && id in s.watches
    ensures Inv(CancelWatch(s.(subs := Without(s.subs, id)), id))
  {
    hide BusOk, Held, CallsFit, Events.Next, NoDups, DistinctQueues;
    InvIsInvBut(s, id);
    var w := s.watches[id];
    assert WatchOk(s.bus, id in s.subs, w);
    hide WatchOk, Inv;
    UnsubscribeOk(s.bus, w.run, w.queue);
    OthersKeep(s, id, Unsubscribe(w.run, w.queue));
    WithoutFacts(s.subs, id);
    CancelledHeld(s.bus, id in s.subs, w, w.cancelled || !w.stage.Ended?);
    hide InvBut;
    OneWatchChanges(s, id, CancelWatch(s.(subs := Without(s.subs, id)), id));
  }

  lemma HeadIsListed(s: Registry)
    requires Inv(s) && s.subs != []
    ensures s.subs[0] in s.watches && s.subs[0] !in s.subs[1..]
  {
    hide BusOk, WatchOk, DistinctQueues;
  }

  /** close empties the table first and then cancels one watch after another. */
  lemma {:induction false} CloseKeepsInv(s: Registry)
    requires Inv(s)
    ensures Inv(CancelAll(s.(subs := []), s.subs))
    decreases |s.subs|
  {
    hide Inv, Events.Next;
    if s.subs != [] {
      var id, rest := s.subs[0], s.subs[1..];
      assert s.subs == [id] + rest;
      HeadIsListed(s);
      WithoutAbsentId(rest, id);
      assert Without(s.subs, id) == rest;
      var u := CancelWatch(s.(subs := rest), id);
      CancelKeepsInv(s, id);
      CloseKeepsInv(u);
      assert u.(subs := []) == CancelWatch(s.(subs := []), id);
    }
  }

  /** A table emptied from another thread leaves its watches to be cancelled later. */
  lemma OffLoopKeepsInv(s: Registry, gone: set<SubId>, left: seq<SubId>)
    requires Inv(s) && NoDups(left) && gone <= ElemsOf(s.subs)
    requires forall id :: id in left <==> id in s.subs && id !in gone
    ensures Inv(s.(subs := left, scheduled := s.scheduled + gone))
  {
    hide BusOk, CallsFit, Unheard, DistinctQueues, NoDups;
    forall x | x in s.watches ensures WatchOk(s.bus, x in left, s.watches[x]) {
      assert WatchOk(s.bus, x in s.subs, s.watches[x]);
    }
  }

  lemma UnregisterOffLoopKeepsInv(s: Registry, id: SubId)
    requires Inv(s) && id in s.subs
    ensures Inv(Next(s, UnregisterOffLoop(id)))
  {
    hide BusOk, WatchOk, DistinctQueues, NoDups, Without;
    WithoutFacts(s.subs, id);
    OffLoopKeepsInv(s, {id}, Without(s.subs, id));
  }

  lemma NoDupsEmpty()
    ensures NoDups<SubId>([])
  {
  }

  lemma CloseOffLoopKeepsInv(s: Registry)
    requires Inv(s)
    ensures Inv(Next(s, CloseOffLoop))
  {
    hide Inv, NoDups;
    NoDupsEmpty();
    OffLoopKeepsInv(s, ElemsOf(s.subs), []);
  }

  lemma ScheduledIsKnown(s: Registry, id: SubId)
    requires Inv(s) && id in s.scheduled
    ensures id in s.watches && id !in s.subs
  {
    hide BusOk, WatchOk, DistinctQueues, NoDups;
  }

  lemma RunScheduledKeepsInv(s: Registry, id: SubId)
    requires Inv(s) && id in s.scheduled
    ensures Inv(Next(s, RunScheduled(id)))
  {
    hide BusOk, WatchOk, DistinctQueues, NoDups, CancelWatch;
    ScheduledIsKnown(s, id);
    WithoutAbsentId(s.subs, id);
    CancelKeepsInv(s, id);
    assert s.(subs := Without(s.subs, id)) == s;
    CancelLeavesTable(s, id);
  }

  lemma CancelLeavesTable(s: Registry, id: SubId)
    ensures CancelWatch(s, id).subs == s.subs && CancelWatch(s, id).scheduled == s.scheduled
  {
  }

  lemma BusStepKeepsInv(s: Registry, x: Events.Action)
    requires Inv(s) && Enabled(s, BusStep(x))
    ensures Inv(Next(s, BusStep(x)))
  {
    NextOk(s.bus, x);
    hide BusOk, Unheard, CallsFit, Events.Next;
    forall i | i in s.watches ensures WatchOk(Events.Next(s.bus, x), i in s.subs, s.watches[i]) {
      assert WatchOk(s.bus, i in s.subs, s.watches[i]);
      BusStepKeepsWatch(s.bus, x, i in s.subs, s.watches[i]);
    }
  }

  lemma StageKeepsInv(s: Registry, id: SubId, w: Watch)
    requires Inv(s) && id in s.watches && !w.stage.Ended?
    requires (w == s.watches[id].(stage := Getting) && s.watches[id].stage.Created?)
             || w == s.watches[id].(cancelled := false)
    ensures Inv(Put(s, id, w))
  {
    InvIsInvBut(s, id);
    assert WatchOk(s.bus, id in s.subs, s.watches[id]);
    hide InvBut, Inv, BusOk;
    PutKeepsInv(s, id, w);
  }

  lemma NextKeepsInv(s: Registry, a: Action)
    requires Inv(s) && Enabled(s, a)
    ensures Inv(Next(s, a))
  {
    hide BusOk, WatchOk, DistinctQueues, NoDups, Events.Next, CancelAll, AfterEvent, End, Deliver, CancelWatch;
    match a {
      case BusStep(x) => { BusStepKeepsInv(s, x); }
      case Register(id, r, q, onEvent, onDone) => { RegisterKeepsInv(s, id, r, q, onEvent, onDone); }
      case Unregister(id) => {
        if id in s.subs { CancelKeepsInv(s, id); }
      }
      case Close => { CloseKeepsInv(s); }
      case UnregisterOffLoop(id) => {
        if id in s.subs { UnregisterOffLoopKeepsInv(s, id); }
      }
      case CloseOffLoop => { CloseOffLoopKeepsInv(s); }
      case RunScheduled(id) => { RunScheduledKeepsInv(s, id); }
      case Advance(id) => {
        var w := s.watches[id];
        if w.stage.Created? { StageKeepsInv(s, id, w.(stage := Getting)); } else { DeliverKeepsInv(s, id); }
      }
      case Return(id, how) => { ReturnKeepsInv(s, id, how); }
      case Swallow(id) => { StageKeepsInv(s, id, s.watches[id].(cancelled := false)); }
      case Interrupt(id) => { InterruptKeepsInv(s, id); }
    }
  }
}
