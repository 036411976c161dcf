/** The bus and the store's event counters as objects updated in place; each method takes one step of Events.Next. */
module RunEventBuses {
  import opened Basics
  import opened Events

  ghost predicate AllOpen(to: seq<QueueId>, queues: map<QueueId, seq<Event>>) {
    forall q :: q in to ==> q in queues
  }

  lemma SubscribersHaveQueues(b: Bus, r: RunId)
    requires BusOk(b)
    ensures NoDups(Subscribers(b, r)) && AllOpen(Subscribers(b, r), b.queues)
  {
    forall q | q in Subscribers(b, r) ensures q in b.queues {
      assert StreamOk(b, r, q);
    }
  }

  lemma {:induction false} AboveSnoc(log: seq<Event>, e: Event, n: int)
    ensures Above(log + [e], n) == Above(log, n) + if SeqOf(e) > n then [e] else []
  {
    if log != [] {
      assert (log + [e])[1..] == log[1..] + [e];
      AboveSnoc(log[1..], e, n);
    }
  }

  lemma {:induction false} WithoutFirstAt(qs: seq<QueueId>, q: QueueId, i: nat)
    requires i < |qs| && qs[i] == q && q !in qs[..i]
    ensures WithoutFirst(qs, q) == qs[..i] + qs[i + 1..]
  {
    if i > 0 {
      assert qs[0] in qs[..i];
      assert forall p :: p in qs[1..][..i - 1] ==> p in qs[..i];
      WithoutFirstAt(qs[1..], q, i - 1);
    }
  }

  lemma PublishStep(b: Bus, r: RunId, e: Event, now: Time, c: Bus)
    requires e.num == None
    requires
      var numbered := e.(num := Some(LastSeq(b, r) + 1));
      && c.cfg == b.cfg && c.subscribers == b.subscribers && c.tickets == b.tickets && c.taken == b.taken
      && c.seqs == b.seqs[r := LastSeq(b, r) + 1]
      && c.history == b.history[r := Prune(History(b, r) + [numbered], b.cfg, now)]
      && c.queues == Push(b.queues, Subscribers(b, r), numbered)
      && c.heard == Push(b.heard, Subscribers(b, r), numbered)
      && c.published == b.published[r := Log(b, r) + [numbered]]
    ensures c == Next(b, Publish(r, e, now))
  {
  }

  lemma SubscribeStep(b: Bus, r: RunId, q: QueueId, since: Option<int>, c: Bus)
    requires q !in b.queues
    requires c.cfg == b.cfg && c.seqs == b.seqs && c.history == b.history && c.published == b.published
    requires c.subscribers == b.subscribers[r := Subscribers(b, r) + [q]]
    requires c.queues == b.queues[q := Replay(History(b, r), since)]
    requires c.tickets == b.tickets[q := TicketFor(b, r, since)] && c.taken == b.taken[q := []]
    requires c.heard == b.heard[q := Log(b, r)]
    ensures c == Next(b, Subscribe(r, q, since))
  {
  }

  class RunEventBus {
    const cfg: Config
    var seqs: map<RunId, nat>
    var history: map<RunId, seq<Event>>
    var subscribers: map<RunId, seq<QueueId>>
    var queues: map<QueueId, seq<Event>>
    ghost var published: map<RunId, seq<Event>>
    ghost var tickets: map<QueueId, Ticket>
    ghost var taken: map<QueueId, seq<Event>>
    ghost var heard: map<QueueId, seq<Event>>

    ghost function View(): Bus
      reads this
    {
      Bus(cfg, seqs, history, subscribers, queues, published, tickets, taken, heard)
    }

    ghost predicate Valid()
      reads this
    {
      BusOk(View())
    }

    constructor (cfg: Config)
      ensures Valid() && View() == EmptyBus(cfg)
    {
      this.cfg := cfg;
      seqs, history, subscribers, queues := map[], map[], map[], map[];
      published, tickets, taken, heard := map[], map[], map[], map[];
    }

    method NextEventSeq(r: RunId) returns (n: nat)
      modifies this`seqs
      ensures n == LastSeq(old(View()), r) + 1 && seqs == old(seqs)[r := n]
    {
      n := (if r in seqs then seqs[r] else 0) + 1;
      seqs := seqs[r := n];
    }

    /** Numbers an event and delivers it. */
    method PublishEvent(r: RunId, e: Event, now: Time)
      requires Valid() && e.num == None
      modifies this
      ensures Valid() && View() == Next(old(View()), Events.Publish(r, e, now))
      ensures r in history && r in seqs && seqs[r] == LastSeq(old(View()), r) + 1
      ensures PrunedTo(History(old(View()), r) + [e.(num := Some(seqs[r]))], history[r], cfg, now)
    {
      hide BusOk, Prune, PrunedTo, Push, NoDups, AllOpen, Next;
      ghost var b := View();
      SubscribersHaveQueues(b, r);
      PublishOk(b, r, e, now);
      var n := NextEventSeq(r);
      Publish(r, e.(num := Some(n)), now);
      heard := Push(heard, Subscribers(b, r), e.(num := Some(n)));
      PublishStep(b, r, e, now, View());
    }

    method Publish(r: RunId, e: Event, now: Time)
      requires NoDups(Subscribers(View(), r)) && AllOpen(Subscribers(View(), r), queues)
      modifies this`history, this`queues, this`published
      ensures history == old(history)[r := Prune(History(old(View()), r) + [e], cfg, now)]
      ensures PrunedTo(History(old(View()), r) + [e], history[r], cfg, now)
      ensures queues == Push(old(queues), Subscribers(old(View()), r), e)
      ensures published == old(published)[r := Log(old(View()), r) + [e]]
    {
      hide Prune, PrunedTo, Push, NoDups, AllOpen;
      published := published[r := Log(View(), r) + [e]];
      history := history[r := (if r in history then history[r] else []) + [e]];
      PruneHistory(r, now);
      FanOut(if r in subscribers then subscribers[r] else [], e);
    }

    method PruneHistory(r: RunId, now: Time)
      requires r in history
      modifies this`history
      ensures history == old(history)[r := Prune(old(history[r]), cfg, now)]
      ensures PrunedTo(old(history[r]), history[r], cfg, now)
    {
      hide PrunedTo;
      PruneKeepsTheLatest(history[r], cfg, now);
      ghost var before := history[r];
      if cfg.ttl.Some? {
        var cutoff := now - cfg.ttl.value;
        while history[r] != []
          invariant r in history && history == old(history)[r := history[r]]
          invariant DropStale(history[r], cutoff) == DropStale(before, cutoff)
          decreases |history[r]|
        {
          var first := history[r][0];
          if first.ts == None || first.ts.value >= cutoff {
            break;
          }
          history := history[r := history[r][1..]];
        }
      }
      if cfg.maxEvents.Some? && cfg.maxEvents.value >= 0 {
        var cap := cfg.maxEvents.value;
        if |history[r]| > cap {
          // A slice that ends at -0 ends at 0: nothing is removed.
          var end := if cap == 0 then 0 else |history[r]| - cap;
          history := history[r := history[r][end..]];
        }
      }
    }

    method FanOut(to: seq<QueueId>, e: Event)
      requires NoDups(to) && AllOpen(to, queues)
      modifies this`queues
      ensures queues == Push(old(queues), to, e)
    {
      for i := 0 to |to|
        invariant queues == Push(old(queues), to[..i], e)
      {
        assert to[..i + 1] == to[..i] + [to[i]];
        queues := queues[to[i] := queues[to[i]] + [e]];
      }
      assert to[..|to|] == to;
    }

    /** Opens queue q on a run: replays the history above `since`, then receives live. */
    method Subscribe(r: RunId, q: QueueId, since: Option<int>)
      requires Valid() && q !in queues
      modifies this
      ensures Valid() && View() == Next(old(View()), Events.Subscribe(r, q, since))
    {
      hide BusOk, Next, Replay, TicketFor, NoDups, Subscribers, History, Log;
      ghost var b := View();
      SubscribeOk(b, r, q, since);
      Attach(r, q, since);
      tickets := tickets[q := TicketFor(b, r, since)];
      taken := taken[q := []];
      heard := heard[q := Log(b, r)];
      SubscribeStep(b, r, q, since, View());
    }

    /** The queue joins the run's subscribers and gets the replay. */
    method Attach(r: RunId, q: QueueId, since: Option<int>)
      modifies this`subscribers, this`queues
      ensures subscribers == old(subscribers)[r := Subscribers(old(View()), r) + [q]]
      ensures queues == old(queues)[q := Replay(History(old(View()), r), since)]
    {
      hide Replay;
      subscribers := subscribers[r := (if r in subscribers then subscribers[r] else []) + [q]];
      ReplayInto(q, if r in history then history[r] else [], since);
    }

    method ReplayInto(q: QueueId, h: seq<Event>, since: Option<int>)
      modifies this`queues
      ensures queues == old(queues)[q := Replay(h, since)]
    {
      queues := queues[q := []];
      if since.Some? && since.value >= 0 {
        for i := 0 to |h|
          invariant q in queues && queues[q] == Above(h[..i], since.value)
          invariant queues == old(queues)[q := queues[q]]
        {
          assert h[..i + 1] == h[..i] + [h[i]];
          AboveSnoc(h[..i], h[i], since.value);
          if SeqOf(h[i]) > since.value {
            queues := queues[q := queues[q] + [h[i]]];
          }
        }
        assert h[..|h|] == h;
      }
    }

    method Unsubscribe(r: RunId, q: QueueId)
      requires Valid()
      modifies this
      ensures Valid() && View() == Next(old(View()), Events.Unsubscribe(r, q))
    {
      UnsubscribeOk(View(), r, q);
      if r in subscribers && q in subscribers[r] {
        var left := RemoveFirst(subscribers[r], q);
        subscribers := if left == [] then subscribers - {r} else subscribers[r := left];
      }
    }

    /** list.remove: everything but the first occurrence of q. */
    static method RemoveFirst(qs: seq<QueueId>, q: QueueId) returns (left: seq<QueueId>)
      requires q in qs
      ensures left == WithoutFirst(qs, q)
    {
      var i := 0;
      while qs[i] != q
        invariant 0 <= i < |qs| && q !in qs[..i]
        decreases |qs| - i
      {
        assert qs[..i + 1] == qs[..i] + [qs[i]];
        i := i + 1;
      }
      WithoutFirstAt(qs, q, i);
      left := qs[..i] + qs[i + 1..];
    }

    /** A reader's queue.get on a queue that has something. */
    method Take(q: QueueId) returns (e: Event)
      requires Valid() && Enabled(View(), Events.Take(q))
      modifies this
      ensures Valid() && View() == Next(old(View()), Events.Take(q))
      ensures e == old(queues[q][0])
    {
      TakeOk(View(), q);
      e := queues[q][0];
      queues := queues[q := queues[q][1..]];
      taken := taken[q := TakenFrom(View(), q) + [e]];
    }

    method Drop(r: RunId)
      requires Valid()
      modifies this
      ensures Valid() && View() == Next(old(View()), DropRun(r))
    {
      hide BusOk;
      DropOk(View(), r);
      seqs, history, subscribers := seqs - {r}, history - {r}, subscribers - {r};
      published := published - {r};
    }
  }
}
