/** A watch registered while its run is stored finishes with the run, unless it came too late for the terminal event. */
module RunWatches {
  import opened Basics
  import opened Jobs
  import opened RunEvents
  import K = Kernel
  import I = Invariants
  import A = Actions
  import S = Safety
  import E = Events
  import C = Callbacks
  import R = CallbackResults
  import Retention

  /** What a watch was given, and the run's log at that moment; `late` if the run had already finished. */
  datatype Post = Post(id: C.SubId, run: RunId, queue: E.QueueId, ticket: E.Ticket, log: seq<E.Event>, late: bool)

  predicate Names(reg: C.Registry, p: Post) {
    p.id in reg.watches && reg.watches[p.id].run == p.run && reg.watches[p.id].queue == p.queue
  }

  /** The queue has heard the log as it stood and more; no end among the rest if the end was there already. */
  ghost predicate HeardSince(b: E.Bus, p: Post) {
    && p.ticket.run == p.run && p.queue in b.heard && p.queue in b.tickets && b.tickets[p.queue] == p.ticket
    && |p.log| <= |b.heard[p.queue]| && b.heard[p.queue][..|p.log|] == p.log
    && (p.late ==> !HasTerminal(b.heard[p.queue][|p.log|..]))
  }

  /** It is subscribed as long as the run is stored, and has heard the end of a run that is not. */
  ghost predicate Listens(store: Store, b: E.Bus, p: Post) {
    if p.run in store.stored then p.queue in E.Subscribers(b, p.run)
    else Finished(store.jobs, p.run) && p.queue in b.heard && HasTerminal(b.heard[p.queue])
  }

  ghost predicate Follows(x: Whole, p: Post) {
    && Names(x.registry, p) && HeardSince(x.registry.bus, p)
    && p.run in x.kernel.store.jobs && (p.late ==> Finished(x.kernel.store.jobs, p.run))
    && (p.id in x.registry.subs ==> Listens(x.kernel.store, x.registry.bus, p))
  }

  // ---------------------------------------------------------------- what the queue hears

  lemma HasTerminalGrows(log: seq<E.Event>, more: seq<E.Event>)
    ensures HasTerminal(log + more) <==> HasTerminal(log) || HasTerminal(more)
  {
    if i :| 0 <= i < |log| && E.IsTerminal(log[i]) { assert E.IsTerminal((log + more)[i]); }
    if i :| 0 <= i < |more| && E.IsTerminal(more[i]) { assert E.IsTerminal((log + more)[|log| + i]); }
  }

  /** A published event is heard in full or not at all, and never a second end. */
  lemma PublishIsHeard(b: E.Bus, r: RunId, e: E.Event, now: Time, p: Post)
    requires Ticketed(b) && HeardSince(b, p) && e.num == None
    requires p.late && E.IsTerminal(e) ==> r != p.run
    ensures var t := E.Next(b, E.Publish(r, e, now));
            && HeardSince(t, p) && (HasTerminal(b.heard[p.queue]) ==> HasTerminal(t.heard[p.queue]))
            && forall x :: E.Subscribers(t, x) == E.Subscribers(b, x)
  {
    hide HasTerminal, E.Prune;
    var numbered := e.(num := Some(E.LastSeq(b, r) + 1));
    var heard, n := b.heard[p.queue], |p.log|;
    HasTerminalSnoc(heard, numbered);
    HasTerminalSnoc(heard[n..], numbered);
    assert (heard + [numbered])[n..] == heard[n..] + [numbered];
    assert (heard + [numbered])[..n] == heard[..n];
  }

  lemma OthersAreHeardAlike(b: E.Bus, b': E.Bus, p: Post)
    requires HeardSince(b, p)
    requires p.queue in b'.heard && b'.heard[p.queue] == b.heard[p.queue]
    requires p.queue in b'.tickets && b'.tickets[p.queue] == b.tickets[p.queue]
    ensures HeardSince(b', p)
  {
  }

  // ---------------------------------------------------------------- a step of the registry

  lemma CancelKeepsNames(reg: C.Registry, id: C.SubId, p: Post)
    requires Names(reg, p)
    ensures Names(C.CancelWatch(reg, id), p) && C.CancelWatch(reg, id).subs == reg.subs
  {
  }

  lemma {:induction false} CancelAllKeepsNames(reg: C.Registry, ids: seq<C.SubId>, p: Post)
    requires Names(reg, p)
    ensures Names(C.CancelAll(reg, ids), p) && C.CancelAll(reg, ids).subs == reg.subs
    decreases |ids|
  {
    hide C.CancelWatch, Names;
    if ids != [] {
      CancelKeepsNames(reg, ids[0], p);
      CancelAllKeepsNames(C.CancelWatch(reg, ids[0]), ids[1..], p);
    }
  }

  lemma EndKeepsNames(reg: C.Registry, id: C.SubId, w: C.Watch, finished: bool, p: Post)
    requires Names(reg, p) && id in reg.watches && w.run == reg.watches[id].run && w.queue == reg.watches[id].queue
    ensures Names(C.End(reg, id, w, finished), p)
    ensures p.id in C.End(reg, id, w, finished).subs ==> p.id in reg.subs && p.id != id
  {
    hide E.Next, C.Without;
    C.WithoutFacts(reg.subs, id);
  }

  lemma AfterEventKeepsNames(reg: C.Registry, id: C.SubId, w: C.Watch, e: E.Event, p: Post)
    requires Names(reg, p) && id in reg.watches && w.run == reg.watches[id].run && w.queue == reg.watches[id].queue
    ensures Names(C.AfterEvent(reg, id, w, e), p)
    ensures p.id in C.AfterEvent(reg, id, w, e).subs ==> p.id in reg.subs
  {
    hide C.End, E.IsTerminal;
    EndKeepsNames(reg, id, w, true, p);
  }

  lemma DeliverKeepsNames(reg: C.Registry, id: C.SubId, p: Post)
    requires Names(reg, p) && id in reg.watches && E.Enabled(reg.bus, E.Take(reg.watches[id].queue))
    ensures Names(C.Deliver(reg, id, reg.watches[id]), p)
    ensures p.id in C.Deliver(reg, id, reg.watches[id]).subs ==> p.id in reg.subs
  {
    hide C.AfterEvent, E.Next;
    var w := reg.watches[id];
    var taken := reg.(bus := E.Next(reg.bus, E.Take(w.queue)));
    AfterEventKeepsNames(taken, id, w, reg.bus.queues[w.queue][0], p);
  }

  /** A watch keeps its run and its queue, and once off the table it does not come back. */
  lemma NextKeepsNames(reg: C.Registry, c: C.Action, p: Post)
    requires C.Enabled(reg, c) && Names(reg, p)
    ensures Names(C.Next(reg, c), p) && (p.id in C.Next(reg, c).subs ==> p.id in reg.subs)
  {
    hide C.CancelWatch, C.CancelAll, C.Without, C.ElemsOf, C.Watched, C.End, C.AfterEvent, C.Deliver, E.Next;
    match c {
      case Advance(id) => { if reg.watches[id].stage.Getting? { DeliverKeepsNames(reg, id, p); } }
      case Close => { CancelAllKeepsNames(reg.(subs := []), reg.subs, p); }
      case Unregister(id) => {
        C.WithoutFacts(reg.subs, id);
        CancelKeepsNames(reg.(subs := C.Without(reg.subs, id)), id, p);
      }
      case UnregisterOffLoop(id) => { C.WithoutFacts(reg.subs, id); }
      case RunScheduled(id) => { CancelKeepsNames(reg, id, p); }
      case Return(id, how) => {
        EndKeepsNames(reg, id, reg.watches[id], how != C.RaisedCancelled, p);
        if reg.watches[id].stage.InEvent? {
          AfterEventKeepsNames(reg, id, reg.watches[id], reg.watches[id].stage.e, p);
        }
      }
      case Interrupt(id) => { EndKeepsNames(reg, id, reg.watches[id], false, p); }
      case _ => {}
    }
  }

  /** Unsubscribing another queue. */
  lemma OtherUnsubscribed(b: E.Bus, r: RunId, q: E.QueueId, x: RunId, mine: E.QueueId)
    requires E.BusOk(b) && mine in E.Subscribers(b, x) && mine != q
    ensures mine in E.Subscribers(E.Next(b, E.Unsubscribe(r, q)), x)
  {
    hide E.BusOk;
    SubscribersAreDistinct(b, r);
    E.WithoutFirstFacts(E.Subscribers(b, r), q);
  }

  lemma SubscribersAreDistinct(b: E.Bus, r: RunId)
    requires E.BusOk(b)
    ensures NoDups(E.Subscribers(b, r))
  {
  }

  lemma QueuesDiffer(reg: C.Registry, id: C.SubId, p: Post)
    requires C.Inv(reg) && Names(reg, p) && id in reg.watches && id != p.id
    ensures reg.watches[id].queue != p.queue
  {
    hide E.BusOk, C.WatchOk;
  }

  /** The queue of a listed watch stays subscribed when anything but a publication or a subscription happens. */
  lemma StaysSubscribed(reg: C.Registry, c: C.Action, p: Post)
    requires C.Inv(reg) && C.Enabled(reg, c) && !Tells(c) && Names(reg, p)
    requires p.id in C.Next(reg, c).subs && p.queue in E.Subscribers(reg.bus, p.run)
    ensures p.queue in E.Subscribers(C.Next(reg, c).bus, p.run)
  {
    hide C.Inv, C.CancelAll, C.Without, C.ElemsOf, C.End, C.AfterEvent, C.Deliver, E.Next, E.BusOk, C.DistinctQueues;
    BusOf(reg);
    QueuesAreDistinct(reg);
    match c {
      case BusStep(Unsubscribe(r, q)) => { OtherUnsubscribed(reg.bus, r, q, p.run, p.queue); }
      case BusStep(Take(q)) => { TakeKeepsSubscribers(reg.bus, q); }
      case Advance(id) => { if reg.watches[id].stage.Getting? { DeliverStays(reg, id, p); } }
      case Close => { CancelAllKeepsNames(reg.(subs := []), reg.subs, p); }
      case Unregister(id) => {
        C.WithoutFacts(reg.subs, id);
        if id in reg.subs { CancelStays(reg.(subs := C.Without(reg.subs, id)), reg, id, p); }
      }
      case RunScheduled(id) => {
        C.ScheduledIsKnown(reg, id);
        CancelStays(reg, reg, id, p);
      }
      case Return(id, how) => {
        if how == C.RaisedCancelled || reg.watches[id].stage.InDone? {
          EndStays(reg, id, reg.watches[id], how != C.RaisedCancelled, p);
        } else {
          AfterEventStays(reg, id, reg.watches[id], reg.watches[id].stage.e, p);
        }
      }
      case Interrupt(id) => { EndStays(reg, id, reg.watches[id], false, p); }
      case _ => {}
    }
  }

  lemma TakeKeepsSubscribers(b: E.Bus, q: E.QueueId)
    requires E.Enabled(b, E.Take(q))
    ensures forall x :: E.Subscribers(E.Next(b, E.Take(q)), x) == E.Subscribers(b, x)
  {
  }

  lemma CancelStays(reg: C.Registry, before: C.Registry, id: C.SubId, p: Post)
    requires C.Inv(before) && Names(before, p) && p.queue in E.Subscribers(reg.bus, p.run) && id != p.id
    requires reg.bus == before.bus && reg.watches == before.watches
    ensures p.queue in E.Subscribers(C.CancelWatch(reg, id).bus, p.run)
  {
    hide C.Inv, E.BusOk, E.Next;
    BusOf(before);
    if id in reg.watches {
      QueuesDiffer(before, id, p);
      OtherUnsubscribed(reg.bus, reg.watches[id].run, reg.watches[id].queue, p.run, p.queue);
    }
  }

  lemma EndStays(reg: C.Registry, id: C.SubId, w: C.Watch, finished: bool, p: Post)
    requires E.BusOk(reg.bus) && Names(reg, p) && id in reg.watches && C.DistinctQueues(reg.watches)
    requires w.run == reg.watches[id].run && w.queue == reg.watches[id].queue
    requires p.queue in E.Subscribers(reg.bus, p.run) && p.id in C.End(reg, id, w, finished).subs
    ensures p.queue in E.Subscribers(C.End(reg, id, w, finished).bus, p.run)
  {
    hide E.BusOk, E.Next, C.Without;
    C.WithoutFacts(reg.subs, id);
    OtherUnsubscribed(reg.bus, w.run, w.queue, p.run, p.queue);
  }

  lemma AfterEventStays(reg: C.Registry, id: C.SubId, w: C.Watch, e: E.Event, p: Post)
    requires E.BusOk(reg.bus) && Names(reg, p) && id in reg.watches && C.DistinctQueues(reg.watches)
    requires w.run == reg.watches[id].run && w.queue == reg.watches[id].queue
    requires p.queue in E.Subscribers(reg.bus, p.run) && p.id in C.AfterEvent(reg, id, w, e).subs
    ensures p.queue in E.Subscribers(C.AfterEvent(reg, id, w, e).bus, p.run)
  {
    hide E.BusOk, C.End, C.DistinctQueues, E.IsTerminal;
    if E.IsTerminal(e) && !w.onDone { EndStays(reg, id, w, true, p); }
  }

  lemma DeliverStays(reg: C.Registry, id: C.SubId, p: Post)
    requires C.Inv(reg) && Names(reg, p) && id in reg.watches && E.Enabled(reg.bus, E.Take(reg.watches[id].queue))
    requires p.queue in E.Subscribers(reg.bus, p.run) && p.id in C.Deliver(reg, id, reg.watches[id]).subs
    ensures p.queue in E.Subscribers(C.Deliver(reg, id, reg.watches[id]).bus, p.run)
  {
    hide C.Inv, E.BusOk, E.Next, C.AfterEvent, C.DistinctQueues;
    BusOf(reg);
    QueuesAreDistinct(reg);
    var w := reg.watches[id];
    var taken := reg.(bus := E.Next(reg.bus, E.Take(w.queue)));
    TakeKeepsSubscribers(reg.bus, w.queue);
    E.TakeOk(reg.bus, w.queue);
    if !w.onEvent { AfterEventStays(taken, id, w, reg.bus.queues[w.queue][0], p); }
  }

  lemma QueuesAreDistinct(reg: C.Registry)
    requires C.Inv(reg)
    ensures C.DistinctQueues(reg.watches)
  {
    hide C.WatchOk, E.BusOk, C.DistinctQueues;
  }

  lemma SubscribedAnew(b: E.Bus, r: RunId, q: E.QueueId, since: Option<int>, p: Post)
    requires HeardSince(b, p) && p.queue in b.queues && q !in b.queues
    ensures var t := E.Next(b, E.Subscribe(r, q, since));
            && HeardSince(t, p) && t.heard[p.queue] == b.heard[p.queue]
            && forall x :: p.queue in E.Subscribers(b, x) ==> p.queue in E.Subscribers(t, x)
  {
    hide E.Replay, HasTerminal;
    OthersAreHeardAlike(b, E.Next(b, E.Subscribe(r, q, since)), p);
  }

  lemma PostIsOpen(reg: C.Registry, p: Post)
    requires C.Inv(reg) && Names(reg, p)
    ensures p.queue in reg.bus.queues
  {
    hide E.BusOk, C.CallsFit;
    assert C.WatchOk(reg.bus, p.id in reg.subs, reg.watches[p.id]);
  }

  lemma WatchStepFollows(x: Whole, c: C.Action, p: Post)
    requires Tied(x) && Can(x, WatchStep(c)) && Follows(x, p)
    ensures Follows(After(x, WatchStep(c)), p)
  {
    hide I.Inv, C.Inv, C.Next, C.Enabled, LogsFollow, HeardRight, HasTerminal, Names, HeardSince, Finished, Ticketed;
    var b, t := x.registry.bus, C.Next(x.registry, c).bus;
    BusOf(x.registry);
    NextKeepsNames(x.registry, c, p);
    PostIsOpen(x.registry, p);
    if !Tells(c) {
      OthersKeepStory(x.registry, c);
      SameStoryHeard(b, t, p);
      if p.id in C.Next(x.registry, c).subs && p.queue in E.Subscribers(b, p.run) { StaysSubscribed(x.registry, c, p); }
    } else {
      TellingHeard(x.registry, c, p);
    }
  }

  lemma SameStoryHeard(b: E.Bus, b': E.Bus, p: Post)
    requires SameStory(b, b') && HeardSince(b, p)
    ensures HeardSince(b', p) && b'.heard == b.heard
  {
  }

  /** Output events and new subscriptions. */
  lemma TellingHeard(reg: C.Registry, c: C.Action, p: Post)
    requires C.Enabled(reg, c) && Tells(c) && Ticketed(reg.bus) && HeardSince(reg.bus, p) && p.queue in reg.bus.queues
    requires c.BusStep? ==> !c.a.DropRun? && (c.a.Publish? ==> !c.a.e.body.StateEvent?)
    ensures var t := C.Next(reg, c).bus;
            && HeardSince(t, p) && p.queue in reg.bus.heard && p.queue in t.heard
            && (HasTerminal(reg.bus.heard[p.queue]) ==> HasTerminal(t.heard[p.queue]))
            && forall x :: p.queue in E.Subscribers(reg.bus, x) ==> p.queue in E.Subscribers(t, x)
  {
    hide Ticketed, E.Next, HasTerminal;
    if c.Register? {
      SubscribedAnew(reg.bus, c.r, c.q, Some(0), p);
    } else if c.a.Subscribe? {
      SubscribedAnew(reg.bus, c.a.r, c.a.q, c.a.since, p);
    } else {
      PublishIsHeard(reg.bus, c.a.r, c.a.e, c.a.now, p);
    }
  }

  // ---------------------------------------------------------------- a step of the kernel

  /** A finished run emits no more state events. */
  lemma FinishedIsSilent(s: K.State, a: K.Action, r: RunId)
    requires I.Inv(s) && K.Enabled(s, a) && Finished(s.store.jobs, r)
    ensures EmittedFor(Emits(s, a), r) == []
  {
    hide I.Inv, K.Next, K.Enabled, Emits, JobOk;
    NotSubmitted(s, a, r);
    EmitsTheWord(s, a, r);
    A.NextKeepsInv(s, a);
    S.RunIsOk(s, r);
    S.RunIsOk(K.Next(s, a), r);
    WordEndsRun(s.store.jobs[r]);
    var word, word' := s.store.jobs[r].word, K.Next(s, a).store.jobs[r].word;
    var i :| 0 <= i < |word| && word[i].Terminal();
    OkMeans(K.Next(s, a).store.jobs[r]);
    assert word'[i] == word[i];
    TerminalLabelIsLast(word', i);
  }

  lemma OkMeans(job: Job)
    requires JobOk(job)
    ensures Meaning(job.word).Some?
  {
  }

  lemma AnnounceIsHeard(reg: C.Registry, e: Option<Emission>, ts: Option<Time>, now: Time, p: Post)
    requires C.Inv(reg) && HeardSince(reg.bus, p) && (p.late ==> EmittedFor(e, p.run) == [])
    ensures var t := Announce(reg, e, ts, now);
            && C.Inv(t) && HeardSince(t.bus, p) && t.watches == reg.watches && t.subs == reg.subs
            && p.queue in reg.bus.heard && p.queue in t.bus.heard
            && (HasTerminal(reg.bus.heard[p.queue]) ==> HasTerminal(t.bus.heard[p.queue]))
            && forall x :: E.Subscribers(t.bus, x) == E.Subscribers(reg.bus, x)
  {
    hide C.Inv, E.Next, HasTerminal, Ticketed;
    BusOf(reg);
    AnnounceFacts(reg, e, ts, now, p.run);
    if e.Some? { PublishIsHeard(reg.bus, e.value.run, StateEventOf(e.value.mark, ts), now, p); }
  }

  lemma {:induction false} DropEachLeaves(reg: C.Registry, gone: seq<RunId>, r: RunId)
    requires r !in gone
    ensures E.Subscribers(DropEach(reg, gone).bus, r) == E.Subscribers(reg.bus, r)
    decreases |gone|
  {
    if gone != [] { DropEachLeaves(C.Next(reg, C.BusStep(E.DropRun(gone[0]))), gone[1..], r); }
  }

  lemma {:induction false} DropEachKeepsWatches(reg: C.Registry, gone: seq<RunId>)
    ensures DropEach(reg, gone).watches == reg.watches && DropEach(reg, gone).subs == reg.subs
    decreases |gone|
  {
    hide E.Next;
    if gone != [] { DropEachKeepsWatches(C.Next(reg, C.BusStep(E.DropRun(gone[0]))), gone[1..]); }
  }

  /** A run that leaves the store has had its terminal event put on every queue subscribed to it. */
  lemma LeavingIsHeard(x: Whole, a: K.Action, ts: Option<Time>, now: Time, p: Post)
    requires Tied(x) && K.Enabled(x.kernel, a)
    requires p.run in x.kernel.store.stored && p.run !in K.Next(x.kernel, a).store.stored
    requires p.queue in E.Subscribers(x.registry.bus, p.run)
    requires var b := Announce(x.registry, Emits(x.kernel, a), ts, now).bus;
             p.queue in E.Subscribers(b, p.run)
    ensures var b := Announce(x.registry, Emits(x.kernel, a), ts, now).bus;
            Finished(K.Next(x.kernel, a).store.jobs, p.run) && p.queue in b.heard && HasTerminal(b.heard[p.queue])
  {
    hide I.Inv, C.Inv, K.Next, K.Enabled, Emits, Announce, Labels, EndsRun, HasTerminal, HeardRight, JobOk, LogsFollow;
    hide E.BusOk;
    var s, t, e := x.kernel, K.Next(x.kernel, a), Emits(x.kernel, a);
    var announced := Announce(x.registry, e, ts, now);
    StoredAfter(s, a, p.run);
    NotSubmitted(s, a, p.run);
    EmitsTheWord(s, a, p.run);
    A.NextKeepsInv(s, a);
    LogFollows(s.store, x.registry.bus, p.run);
    AnnounceFacts(x.registry, e, ts, now, p.run);
    BusOf(announced);
    SubscribedHears(announced.bus, p.run, p.queue);
    if t.store.jobs[p.run].status.Active() { ActiveIsStored(t, p.run); }
    S.RunIsOk(t, p.run);
    WordEndsRun(t.store.jobs[p.run]);
    TerminalInLabels(announced.bus.heard[p.queue]);
  }

  lemma KernelStepListens(x: Whole, a: K.Action, ts: Option<Time>, now: Time, gone: seq<RunId>, p: Post)
    requires Tied(x) && Can(x, KernelStep(a, ts, now, gone)) && Follows(x, p) && p.id in x.registry.subs
    requires p.late ==> EmittedFor(Emits(x.kernel, a), p.run) == []
    ensures var y := After(x, KernelStep(a, ts, now, gone));
            Listens(y.kernel.store, y.registry.bus, p)
  {
    hide I.Inv, C.Inv, K.Next, K.Enabled, Emits, Announce, DropEach, Gone, HasTerminal, HeardRight, LogsFollow;
    hide Finished, HeardSince, Names;
    var s, t, e := x.kernel, K.Next(x.kernel, a), Emits(x.kernel, a);
    var announced := Announce(x.registry, e, ts, now);
    AnnounceIsHeard(x.registry, e, ts, now, p);
    DropEachFacts(announced, gone, p.run);
    StoredAfter(s, a, p.run);
    NotSubmitted(s, a, p.run);
    KernelFinishes(s, a, p.run);
    GoneIs(s, a, p.run);
    assert p.run in gone <==> p.run in Gone(s, a) by { assert p.run in gone <==> p.run in Elems(gone); }
    if p.run in t.store.stored {
      DropEachLeaves(announced, gone, p.run);
    } else if p.run in s.store.stored {
      LeavingIsHeard(x, a, ts, now, p);
    }
  }

  lemma KernelStepFollowsOn(x: Whole, a: K.Action, ts: Option<Time>, now: Time, gone: seq<RunId>, p: Post)
    requires Tied(x) && Can(x, KernelStep(a, ts, now, gone)) && Follows(x, p)
    ensures Follows(After(x, KernelStep(a, ts, now, gone)), p)
  {
    hide I.Inv, C.Inv, K.Next, K.Enabled, Emits, Announce, DropEach, Gone, HeardRight, LogsFollow, Finished, HeardSince;
    hide Listens, HasTerminal;
    var s, e := x.kernel, Emits(x.kernel, a);
    if p.late { FinishedIsSilent(s, a, p.run); }
    KernelFinishes(s, a, p.run);
    NotSubmitted(s, a, p.run);
    EmitsTheWord(s, a, p.run);
    AnnounceIsHeard(x.registry, e, ts, now, p);
    var announced := Announce(x.registry, e, ts, now);
    DropEachFacts(announced, gone, p.run);
    DropEachKeepsWatches(announced, gone);
    DroppedHeard(announced.bus, DropEach(announced, gone).bus, p);
    if p.id in x.registry.subs { KernelStepListens(x, a, ts, now, gone, p); }
  }

  lemma DroppedHeard(b: E.Bus, b': E.Bus, p: Post)
    requires HeardSince(b, p) && b'.heard == b.heard && b'.tickets == b.tickets
    ensures HeardSince(b', p)
  {
  }

  lemma {:induction false} ExecFollows(x: Whole, acts: seq<Act>, p: Post)
    requires Tied(x) && Legal(x, acts) && Follows(x, p)
    ensures Tied(Exec(x, acts)) && Follows(Exec(x, acts), p)
    decreases |acts|
  {
    hide Tied, After, Can, Follows;
    if acts != [] {
      match acts[0] {
        case KernelStep(a, ts, now, gone) => {
          KernelStepKeepsTied(x, a, ts, now, gone);
          KernelStepFollowsOn(x, a, ts, now, gone, p);
        }
        case WatchStep(c) => {
          WatchStepKeepsTied(x, c);
          WatchStepFollows(x, c, p);
        }
      }
      ExecFollows(After(x, acts[0]), acts[1..], p);
    }
  }

  // ---------------------------------------------------------------- from the registration on

  function PostOf(x: Whole, c: C.Action, late: bool): Post
    requires c.Register?
  {
    Post(c.id, c.r, c.q, E.TicketFor(x.registry.bus, c.r, Some(0)), E.Log(x.registry.bus, c.r), late)
  }

  lemma RegisteredFollows(x: Whole, c: C.Action, late: bool)
    requires Tied(x) && c.Register? && Can(x, WatchStep(c)) && c.r in x.kernel.store.stored
    requires late ==> Finished(x.kernel.store.jobs, c.r)
    ensures Follows(After(x, WatchStep(c)), PostOf(x, c, late))
  {
    hide I.Inv, C.Inv, LogsFollow, HeardRight, E.Replay, Meaning, Finished, E.BusOk, C.Watched;
    StoredJob(x.kernel, c.r);
    SubscribedPost(x, c, late);
  }

  lemma RegisteredIsLeftAlone(x: Whole, c: C.Action)
    requires c.Register? && Can(x, WatchStep(c))
    ensures LeftAlone(After(x, WatchStep(c)).registry, c.id)
  {
  }

  lemma SubscribedPost(x: Whole, c: C.Action, late: bool)
    requires c.Register? && Can(x, WatchStep(c))
    ensures var b := E.Next(x.registry.bus, E.Subscribe(c.r, c.q, Some(0)));
            HeardSince(b, PostOf(x, c, late)) && c.q in E.Subscribers(b, c.r)
  {
    hide E.Replay, C.Watched;
    var log := E.Log(x.registry.bus, c.r);
    assert log[|log|..] == [];
  }

  /** The watch has not been unregistered, closed or interrupted: it is in the table, or reached its end. */
  predicate LeftAlone(reg: C.Registry, id: C.SubId) {
    id in reg.watches && (id in reg.subs || reg.watches[id].stage == C.Ended(true))
  }

  /** What takes a watch off the table before its end. */
  predicate Removes(c: C.Action, id: C.SubId) {
    || c == C.Unregister(id) || c == C.UnregisterOffLoop(id) || c == C.Close || c == C.CloseOffLoop
    || c == C.Return(id, C.RaisedCancelled)
  }

  ghost predicate Spared(acts: seq<Act>, id: C.SubId) {
    forall i :: 0 <= i < |acts| ==> (acts[i].WatchStep? ==> !Removes(acts[i].c, id))
  }

  lemma OtherEnds(reg: C.Registry, other: C.SubId, w: C.Watch, finished: bool, id: C.SubId)
    requires LeftAlone(reg, id) && (other == id ==> finished)
    ensures LeftAlone(C.End(reg, other, w, finished), id)
  {
    hide E.Next, C.Without;
    C.WithoutFacts(reg.subs, other);
  }

  lemma AfterEventLeavesAlone(reg: C.Registry, other: C.SubId, w: C.Watch, e: E.Event, id: C.SubId)
    requires LeftAlone(reg, id) && (other == id ==> id in reg.subs)
    ensures LeftAlone(C.AfterEvent(reg, other, w, e), id)
  {
    hide C.End, E.IsTerminal;
    OtherEnds(reg, other, w, true, id);
  }

  lemma StepLeavesAlone(reg: C.Registry, c: C.Action, id: C.SubId)
    requires C.Inv(reg) && C.Enabled(reg, c) && LeftAlone(reg, id) && !Removes(c, id)
    ensures LeftAlone(C.Next(reg, c), id)
  {
    hide C.Inv, C.CancelAll, C.Without, C.ElemsOf, C.Watched, C.End, C.AfterEvent, E.Next;
    if id in reg.subs { C.ListedIsUncancelled(reg, id); }
    match c {
      case Unregister(other) => { C.WithoutFacts(reg.subs, other); }
      case UnregisterOffLoop(other) => { C.WithoutFacts(reg.subs, other); }
      case Advance(other) => {
        var w := reg.watches[other];
        if w.stage.Getting? && !w.onEvent {
          var taken := reg.(bus := E.Next(reg.bus, E.Take(w.queue)));
          AfterEventLeavesAlone(taken, other, w, reg.bus.queues[w.queue][0], id);
        }
      }
      case Return(other, how) => {
        var w := reg.watches[other];
        if how == C.RaisedCancelled || w.stage.InDone? {
          OtherEnds(reg, other, w, how != C.RaisedCancelled, id);
        } else {
          AfterEventLeavesAlone(reg, other, w, w.stage.e, id);
        }
      }
      case Interrupt(other) => { OtherEnds(reg, other, reg.watches[other], false, id); }
      case _ => {}
    }
  }

  lemma {:induction false} ExecLeavesAlone(x: Whole, acts: seq<Act>, id: C.SubId)
    requires Tied(x) && Legal(x, acts) && LeftAlone(x.registry, id)
    requires Spared(acts, id)
    ensures LeftAlone(Exec(x, acts).registry, id)
    decreases |acts|
  {
    hide I.Inv, C.Inv, K.Next, K.Enabled, Emits, Gone, LogsFollow, HeardRight, C.Next, C.Enabled, Announce, DropEach;
    if acts != [] {
      match acts[0] {
        case KernelStep(a, ts, now, gone) => {
          KernelStepKeepsTied(x, a, ts, now, gone);
          AnnounceKeepsWatches(x.registry, Emits(x.kernel, a), ts, now);
          DropEachKeepsWatches(Announce(x.registry, Emits(x.kernel, a), ts, now), gone);
        }
        case WatchStep(c) => {
          WatchStepKeepsTied(x, c);
          StepLeavesAlone(x.registry, c, id);
        }
      }
      ExecLeavesAlone(After(x, acts[0]), acts[1..], id);
    }
  }

  lemma AnnounceKeepsWatches(reg: C.Registry, e: Option<Emission>, ts: Option<Time>, now: Time)
    ensures Announce(reg, e, ts, now).watches == reg.watches && Announce(reg, e, ts, now).subs == reg.subs
  {
    hide E.Next;
  }

  /** At the end of a stretch in which the run finished, or had finished: what a stopped watch makes of it. */
  lemma StoppedFollower(y: Whole, p: Post)
    requires Tied(y) && Follows(y, p) && R.Stopped(y.registry, p.id) && LeftAlone(y.registry, p.id)
    requires !p.late ==> !HasTerminal(p.log)
    requires p.ticket.pruned <= |p.log|
    ensures p.id in y.registry.watches
    ensures var done := y.registry.watches[p.id].stage == C.Ended(true);
            done <==> Finished(y.kernel.store.jobs, p.run) && (p.late ==> HasTerminal(p.log[p.ticket.pruned..]))
  {
    hide I.Inv, C.Inv, LogsFollow, Finished, R.OwnStep, HasTerminal;
    var b, jobs := y.registry.bus, y.kernel.store.jobs;
    var heard, cut, n := b.heard[p.queue], p.ticket.pruned, |p.log|;
    R.StoppedIsFinished(y.registry, p.id);
    FirstIsSome(heard, cut);
    assert heard == heard[..n] + heard[n..];
    HasTerminalGrows(heard[..n], heard[n..]);
    assert heard[cut..] == p.log[cut..] + heard[n..];
    HasTerminalGrows(p.log[cut..], heard[n..]);
    assert p.log == p.log[..cut] + p.log[cut..];
    HasTerminalGrows(p.log[..cut], p.log[cut..]);
    if p.id in y.registry.subs && Finished(jobs, p.run) { ListenerHeardTheEnd(y, p); }
  }

  lemma ListenerHeardTheEnd(y: Whole, p: Post)
    requires Tied(y) && Follows(y, p) && p.id in y.registry.subs && Finished(y.kernel.store.jobs, p.run)
    ensures HasTerminal(y.registry.bus.heard[p.queue])
  {
    hide I.Inv, C.Inv, LogsFollow, Finished, HasTerminal;
    if p.run in y.kernel.store.stored {
      BusOf(y.registry);
      SubscribedHears(y.registry.bus, p.run, p.queue);
      LogTellsFinished(y.kernel, y.registry.bus, p.run);
    }
  }

  lemma FirstIsSome(log: seq<E.Event>, cut: nat)
    requires cut <= |log|
    ensures (exists k :: R.FirstTerminal(log, cut, k)) <==> HasTerminal(log[cut..])
  {
    if k: nat :| R.FirstTerminal(log, cut, k) { assert E.IsTerminal(log[cut..][k - cut]); }
    if i :| 0 <= i < |log[cut..]| && E.IsTerminal(log[cut..][i]) { SomeFirst(log, cut, cut + i); }
  }

  lemma PostFacts(x: Whole, c: C.Action, late: bool)
    requires Tied(x) && c.Register? && c.r in x.kernel.store.stored && (late <==> Finished(x.kernel.store.jobs, c.r))
    ensures var p := PostOf(x, c, late);
            && p.ticket.pruned <= |p.log| && p.log[p.ticket.pruned..] == E.History(x.registry.bus, c.r)
            && (!late ==> !HasTerminal(p.log))
  {
    hide I.Inv, C.Inv, Finished, HasTerminal, LogsFollow, HeardRight, E.BusOk, E.History, E.Log, Ticketed;
    LogTellsFinished(x.kernel, x.registry.bus, c.r);
    BusOf(x.registry);
    RetainedIsRest(x.registry.bus, c.r);
  }

  /** What is retained of a log is what has not been pruned. */
  lemma RetainedIsRest(b: E.Bus, r: RunId)
    requires E.BusOk(b)
    ensures E.TicketFor(b, r, Some(0)).pruned <= |E.Log(b, r)|
    ensures E.Log(b, r)[E.TicketFor(b, r, Some(0)).pruned..] == E.History(b, r)
  {
    hide E.QueueOk, E.StreamOk, E.Numbered;
    assert E.LogOk(b, r);
  }

  /**
   * Let a watch be registered on a stored run, and not be unregistered or interrupted by its callback since. Once it
   * has stopped, it has finished if and only if the run has, and the run's terminal event was still to come or
   * retained when the watch was registered. It makes no difference whether the run is still stored by then.
   */
  lemma WatchFinishesWithRun(limits: Retention.Limits, n: nat, cfg: E.Config, before: seq<Act>, x: Whole, c: C.Action,
                             since: seq<Act>, y: Whole)
    requires ReachableBy(limits, n, cfg, before, x)
    requires c.Register? && Can(x, WatchStep(c)) && c.r in x.kernel.store.stored
    requires Legal(After(x, WatchStep(c)), since) && y == Exec(After(x, WatchStep(c)), since)
    requires Spared(since, c.id) && R.Stopped(y.registry, c.id)
    ensures c.id in y.registry.watches
    ensures y.registry.watches[c.id].stage == C.Ended(true)
            <==> && Finished(y.kernel.store.jobs, c.r)
                 && (Finished(x.kernel.store.jobs, c.r) ==> HasTerminal(E.History(x.registry.bus, c.r)))
  {
    hide Tied, Can, After, Legal, Exec, Follows, Finished, HasTerminal, ReachableBy, R.Stopped, LeftAlone, Spared;
    hide K.Next, C.Next, E.TicketFor, E.Log, E.History;
    var late := Finished(x.kernel.store.jobs, c.r);
    var p := PostOf(x, c, late);
    ReachableTied(limits, n, cfg, before, x);
    PostFacts(x, c, late);
    WatchStepKeepsTied(x, c);
    RegisteredFollows(x, c, late);
    ExecFollows(After(x, WatchStep(c)), since, p);
    RegisteredIsLeftAlone(x, c);
    ExecLeavesAlone(After(x, WatchStep(c)), since, c.id);
    StoppedFollower(y, p);
  }
}
