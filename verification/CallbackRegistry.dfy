/** The registry as an object updated in place over the event bus; each method takes one step of Callbacks.Next. */
module CallbackRegistries {
  import opened Basics
  import opened Events
  import opened RunEventBuses
  import opened Callbacks

  class CallbackRegistry {
    const bus: RunEventBus
    var subs: seq<SubId>
    var scheduled: set<SubId>
    var watches: map<SubId, Watch>

    ghost function View(): Registry
      reads this, bus
    {
      Registry(bus.View(), subs, scheduled, watches)
    }

    constructor (bus: RunEventBus)
      requires bus.Valid()
      ensures this.bus == bus && View() == Registry(bus.View(), [], {}, map[]) && Inv(View())
    {
      this.bus := bus;
      subs, scheduled, watches := [], {}, map[];
    }

    /** Subscribes from the first retained event on and starts a watch task. */
    method Register(id: SubId, r: RunId, q: QueueId, onEvent: bool, onDone: bool)
      requires Inv(View()) && Callbacks.Enabled(View(), Callbacks.Action.Register(id, r, q, onEvent, onDone))
      modifies this, bus
      ensures subs == old(subs) + [id]
      ensures watches == old(watches)[id := Watch(r, q, onEvent, onDone, false, Created, [])]
      ensures Inv(View()) && View() == Callbacks.Next(old(View()), Callbacks.Action.Register(id, r, q, onEvent, onDone))
    {
      hide Inv, Events.Next, BusOk, Without, CallsFit, ElemsOf;
      Callbacks.NextKeepsInv(View(), Callbacks.Action.Register(id, r, q, onEvent, onDone));
      BusIsOk(View());
      bus.Subscribe(r, q, Some(0));
      watches := watches[id := Watch(r, q, onEvent, onDone, false, Created, [])];
      subs := subs + [id];
    }

    method Unregister(id: SubId)
      requires Inv(View())
      modifies this, bus
      ensures Unregistered(old(View()), View(), id)
      ensures Inv(View()) && View() == Callbacks.Next(old(View()), Callbacks.Action.Unregister(id))
    {
      hide Inv, Events.Next, BusOk, CallsFit, ElemsOf;
      UnregisterMarks(View(), id);
      Callbacks.NextKeepsInv(View(), Callbacks.Action.Unregister(id));
      BusIsOk(View());
      if id !in subs {
        return;
      }
      subs := Remaining(subs, id);
      CancelTask(id);
    }

    /** task.cancel() for a watch, and its queue taken off the bus. */
    method CancelTask(id: SubId)
      requires bus.Valid()
      modifies this`watches, bus
      ensures bus.Valid() && View() == CancelWatch(old(View()), id)
    {
      hide BusOk, Events.Next;
      if id in watches {
        var w := watches[id];
        bus.Unsubscribe(w.run, w.queue);
        watches := watches[id := w.(cancelled := w.cancelled || !w.stage.Ended?)];
      }
    }

    method Close()
      requires Inv(View())
      modifies this, bus
      ensures Inv(View()) && View() == Callbacks.Next(old(View()), Callbacks.Action.Close)
      ensures subs == [] && forall id :: id in old(subs) ==> Cancelled(View(), id)
    {
      hide Inv, BusOk, CancelWatch, Without, CallsFit, Events.Next;
      CloseMarks(View());
      Callbacks.NextKeepsInv(View(), Callbacks.Action.Close);
      BusIsOk(View());
      var ids := subs;
      subs := [];
      ghost var start := View();
      for i := 0 to |ids|
        invariant bus.Valid()
        invariant CancelAll(View(), ids[i..]) == CancelAll(start, ids)
      {
        assert ids[i..][0] == ids[i] && ids[i..][1..] == ids[i + 1..];
        CancelTask(ids[i]);
      }
    }

    /** unregister from another thread: the table entry goes now, the cancellation is left to the loop. */
    method UnregisterFromThread(id: SubId)
      requires Inv(View())
      modifies this`subs, this`scheduled
      ensures id !in subs && scheduled == old(scheduled) + (if id in old(subs) then {id} else {})
      ensures Inv(View()) && View() == Callbacks.Next(old(View()), UnregisterOffLoop(id))
    {
      hide Inv, BusOk;
      WithoutFacts(subs, id);
      Callbacks.NextKeepsInv(View(), UnregisterOffLoop(id));
      if id !in subs {
        return;
      }
      subs := Remaining(subs, id);
      scheduled := scheduled + {id};
    }

    /** close from another thread: all entries go now, one cancellation for each is left to the loop. */
    method CloseFromThread()
      requires Inv(View())
      modifies this`subs, this`scheduled
      ensures subs == [] && forall id :: id in scheduled <==> id in old(scheduled) || id in old(subs)
      ensures Inv(View()) && View() == Callbacks.Next(old(View()), CloseOffLoop)
    {
      hide Inv, BusOk;
      Callbacks.NextKeepsInv(View(), CloseOffLoop);
      var ids := subs;
      subs := [];
      for i := 0 to |ids|
        invariant subs == [] && scheduled == old(scheduled) + ElemsOf(ids[..i])
      {
        assert ids[..i + 1] == ids[..i] + [ids[i]];
        scheduled := scheduled + {ids[i]};
      }
      assert ids[..|ids|] == ids;
    }

    /** The loop runs a cancellation left to it. */
    method ScheduledCancel(id: SubId)
      requires Inv(View()) && id in scheduled
      modifies this`watches, this`scheduled, bus
      ensures Inv(View()) && View() == Callbacks.Next(old(View()), RunScheduled(id))
      ensures Over(View(), id)
    {
      hide Inv, BusOk, CancelWatch, Without, CallsFit, Events.Next, Callbacks.Next;
      ScheduledMarks(View(), id);
      Callbacks.NextKeepsInv(View(), RunScheduled(id));
      BusIsOk(View());
      CancelTask(id);
      scheduled := scheduled - {id};
      CancelLeavesTable(old(View()), id);
    }

    /** dict.pop with a default. */
    static method Remaining(ids: seq<SubId>, id: SubId) returns (left: seq<SubId>)
      ensures left == Without(ids, id)
    {
      left := [];
      for i := 0 to |ids|
        invariant left == Without(ids[..i], id)
      {
        assert ids[..i + 1] == ids[..i] + [ids[i]];
        WithoutSnoc(ids[..i], ids[i], id);
        if ids[i] != id {
          left := left + [ids[i]];
        }
      }
      assert ids[..|ids|] == ids;
    }

    /** The finally clause of a watch. */
    method Finish(id: SubId, w: Watch, finished: bool)
      requires bus.Valid()
      modifies this, bus
      ensures View() == End(old(View()), id, w, finished)
    {
      hide BusOk, Events.Next;
      bus.Unsubscribe(w.run, w.queue);
      subs := Remaining(subs, id);
      watches := watches[id := w.(stage := Ended(finished))];
    }

    /** The loop body after on_event. */
    method ContinueAfter(id: SubId, w: Watch, e: Event)
      requires bus.Valid()
      modifies this, bus
      ensures View() == AfterEvent(old(View()), id, w, e)
    {
      hide BusOk, Events.Next, End;
      if !IsTerminal(e) {
        watches := watches[id := w.(stage := Getting)];
      } else if w.onDone {
        watches := watches[id := w.(stage := InDone(e), calls := w.calls + [OnDone(e)])];
      } else {
        Finish(id, w, true);
      }
    }

    /** A watch starts, or gets its next event and calls on_event. */
    method RunWatch(id: SubId)
      requires Inv(View()) && Callbacks.Enabled(View(), Advance(id))
      modifies this, bus
      ensures Inv(View()) && View() == Callbacks.Next(old(View()), Advance(id))
    {
      Callbacks.NextKeepsInv(View(), Advance(id));
      BusIsOk(View());
      hide Inv, BusOk, Events.Next, AfterEvent;
      var w := watches[id];
      if w.stage.Created? {
        watches := watches[id := w.(stage := Getting)];
        return;
      }
      var e := bus.Take(w.queue);
      if w.onEvent {
        watches := watches[id := w.(stage := InEvent(e), calls := w.calls + [OnEvent(e)])];
      } else {
        ContinueAfter(id, w, e);
      }
    }

    /** A callback comes back: an Exception is swallowed, CancelledError ends the watch. */
    method CallbackReturns(id: SubId, how: Outcome)
      requires Inv(View()) && Callbacks.Enabled(View(), Return(id, how))
      modifies this, bus
      ensures Inv(View()) && View() == Callbacks.Next(old(View()), Return(id, how))
    {
      hide Inv, BusOk, Events.Next, AfterEvent, End, Without, CallsFit;
      Callbacks.NextKeepsInv(View(), Return(id, how));
      BusIsOk(View());
      var w := watches[id];
      if how == RaisedCancelled {
        Finish(id, w, false);
      } else if w.stage.InEvent? {
        ContinueAfter(id, w, w.stage.e);
      } else {
        Finish(id, w, true);
      }
    }

    /** A pending cancellation reaches the watch. */
    method CancellationArrives(id: SubId)
      requires Inv(View()) && Callbacks.Enabled(View(), Interrupt(id))
      modifies this, bus
      ensures Inv(View()) && View() == Callbacks.Next(old(View()), Interrupt(id))
    {
      hide Inv, BusOk, Events.Next, End, Without, CallsFit;
      Callbacks.NextKeepsInv(View(), Interrupt(id));
      BusIsOk(View());
      Finish(id, watches[id], false);
    }

    /** A callback catches the cancellation that reached it; the watch runs on. */
    method CallbackSwallows(id: SubId)
      requires Inv(View()) && Callbacks.Enabled(View(), Swallow(id))
      modifies this`watches
      ensures Inv(View()) && View() == Callbacks.Next(old(View()), Swallow(id))
    {
      hide Inv, BusOk, Events.Next, Without, CallsFit;
      Callbacks.NextKeepsInv(View(), Swallow(id));
      watches := watches[id := watches[id].(cancelled := false)];
    }
  }

  lemma {:induction false} WithoutSnoc(ids: seq<SubId>, last: SubId, id: SubId)
    ensures Without(ids + [last], id) == Without(ids, id) + if last == id then [] else [last]
  {
    if ids != [] {
      assert (ids + [last])[1..] == ids[1..] + [last];
      WithoutSnoc(ids[1..], last, id);
    }
  }

  lemma BusIsOk(s: Registry)
    requires Inv(s)
    ensures BusOk(s.bus)
  {
  }

  /** The entry is gone and its watch cancelled; without an entry nothing has changed. */
  predicate Unregistered(s: Registry, t: Registry, id: SubId) {
    id !in t.subs && if id in s.subs then Cancelled(t, id) else t == s
  }

  lemma UnregisterMarks(s: Registry, id: SubId)
    requires Inv(s)
    ensures var t := Callbacks.Next(s, Callbacks.Action.Unregister(id));
            Unregistered(s, t, id)
  {
    hide Inv, Events.Next;
    WithoutFacts(s.subs, id);
    if id in s.subs { ListedIsUncancelled(s, id); }
  }

  lemma ScheduledMarks(s: Registry, id: SubId)
    requires Inv(s) && id in s.scheduled
    ensures var t := CancelWatch(s, id);
            && Over(t, id) && t.subs == s.subs
            && Callbacks.Next(s, RunScheduled(id)) == t.(scheduled := s.scheduled - {id})
  {
    hide Inv, Events.Next;
    ScheduledIsKnown(s, id);
  }

  lemma CloseMarks(s: Registry)
    requires Inv(s)
    ensures var t := Callbacks.Next(s, Callbacks.Action.Close);
            t.subs == [] && forall id :: id in s.subs ==> Cancelled(t, id)
  {
    hide Inv, CancelWatch;
    forall id | id in s.subs ensures Cancelled(Callbacks.Next(s, Callbacks.Action.Close), id) {
      ListedIsUncancelled(s, id);
      CancelAllMarks(s.(subs := []), s.subs, id);
    }
    CancelAllKeepsTable(s.(subs := []), s.subs);
  }

  lemma {:induction false} CancelAllKeepsTable(s: Registry, ids: seq<SubId>)
    ensures CancelAll(s, ids).subs == s.subs
    decreases |ids|
  {
    hide CancelWatch;
    if ids != [] {
      CancelLeavesTable(s, ids[0]);
      CancelAllKeepsTable(CancelWatch(s, ids[0]), ids[1..]);
    }
  }
}
