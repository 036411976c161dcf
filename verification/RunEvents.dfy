/**
 * The kernel joined to the event bus and the callback registry: each step publishes the state event it emits, and
 * runs that leave the store are dropped from the bus.
 */
module RunEvents {
  import opened Basics
  import opened Jobs
  import K = Kernel
  import I = Invariants
  import A = Actions
  import S = Safety
  import E = Events
  import C = Callbacks
  import R = CallbackResults
  import Retention

  datatype Whole = Whole(kernel: K.State, registry: C.Registry)

  datatype Emission = Emission(run: RunId, mark: Label)

  /** The state event an action of the kernel emits, if any. */
  function Emits(s: K.State, a: K.Action): Option<Emission>
    requires K.Enabled(s, a)
  {
    match a
    case Dequeue(w) =>
      var item, found := s.queue[0], s.queue[0].runId in s.store.stored;
      if K.Blocked(s, item.lockKey) || K.Skips(s, item, found) || item.runId !in s.store.jobs then None
      else Some(Emission(item.runId, Start))
    case Grant(w) =>
      var item, found := s.workers[w].item, s.workers[w].found;
      if K.Skips(s, item, found) || item.runId !in s.store.jobs then None else Some(Emission(item.runId, Start))
    case Finish(w, outcome, _) => Some(Emission(s.workers[w].item.runId, SettledLabel(outcome)))
    case Cancel(id, _) =>
      if id !in s.store.stored || id !in s.store.jobs then None
      else if s.store.jobs[id].status == Pending then Some(Emission(id, CancelledLabel))
      else if s.store.jobs[id].status == Running then Some(Emission(id, CancelRequested))
      else None
    case _ => None
  }

  function EmittedFor(e: Option<Emission>, id: RunId): seq<Label> {
    if e.Some? && e.value.run == id then [e.value.mark] else []
  }

  /** Emissions are what a run's word grows by. */
  lemma EmitsTheWord(s: K.State, a: K.Action, id: RunId)
    requires K.Enabled(s, a) && id in s.store.jobs
    requires a.Submit? ==> a.inv.runId != id
    ensures id in K.Next(s, a).store.jobs
    ensures K.Next(s, a).store.jobs[id].word == s.store.jobs[id].word + EmittedFor(Emits(s, a), id)
  {
    hide CleanedIds, SettledLabel, Resolve;
  }

  /** Runs dropped from the bus: those that leave the store, and the one popped, stored or not. */
  ghost function Gone(s: K.State, a: K.Action): set<RunId>
    requires K.Enabled(s, a)
  {
    (s.store.stored - K.Next(s, a).store.stored) + if a.PopRun? then {a.id} else {}
  }

  lemma ActiveIsStored(s: K.State, id: RunId)
    requires I.Inv(s) && id in s.store.jobs && s.store.jobs[id].status.Active()
    ensures id in s.store.stored
  {
    hide JobOk, I.ItemsKnown, I.AwaitsKnown, I.PlacesRight, I.StatusesFit, I.LogRight, I.LocksMatch, I.Fifo;
  }

  lemma EmitterIsStored(s: K.State, a: K.Action)
    requires I.Inv(s) && K.Enabled(s, a) && Emits(s, a).Some?
    ensures Emits(s, a).value.run in s.store.stored && Emits(s, a).value.run in s.store.jobs
  {
    hide I.Inv;
    match a {
      case Finish(w, _, _) => { S.ExecutingIsRunning(s, w); }
      case Grant(w) => {
        S.GrantedIsUntouched(s, w);
        ActiveIsStored(s, s.workers[w].item.runId);
      }
      case _ => {}
    }
  }

  // ---------------------------------------------------------------- steps of the whole

  function StateEventOf(mark: Label, ts: Option<Time>): E.Event {
    E.Event(None, ts, E.StateEvent(mark))
  }

  datatype Act =
    | KernelStep(a: K.Action, ts: Option<Time>, now: Time, gone: seq<RunId>)
    | WatchStep(c: C.Action)

  /** Only the executor publishes state events or drops runs. */
  ghost predicate Can(x: Whole, act: Act) {
    match act
    case KernelStep(a, _, _, gone) => K.Enabled(x.kernel, a) && Elems(gone) == Gone(x.kernel, a)
    case WatchStep(c) =>
      && C.Enabled(x.registry, c)
      && (c.BusStep? ==> !c.a.DropRun? && (c.a.Publish? ==> !c.a.e.body.StateEvent?))
  }

  function DropEach(reg: C.Registry, gone: seq<RunId>): C.Registry
    decreases |gone|
  {
    if gone == [] then reg else DropEach(C.Next(reg, C.BusStep(E.DropRun(gone[0]))), gone[1..])
  }

  function Announce(reg: C.Registry, e: Option<Emission>, ts: Option<Time>, now: Time): C.Registry {
    if e == None then reg
    else C.Next(reg, C.BusStep(E.Publish(e.value.run, StateEventOf(e.value.mark, ts), now)))
  }

  ghost function After(x: Whole, act: Act): Whole
    requires Can(x, act)
  {
    match act
    case KernelStep(a, ts, now, gone) =>
      Whole(K.Next(x.kernel, a), DropEach(Announce(x.registry, Emits(x.kernel, a), ts, now), gone))
    case WatchStep(c) => x.(registry := C.Next(x.registry, c))
  }

  // ---------------------------------------------------------------- logs and words

  /** The labels of a log's state events, in order. */
  function Labels(log: seq<E.Event>): seq<Label> {
    if log == [] then []
    else Labels(log[..|log| - 1]) + MarkOf(log[|log| - 1])
  }

  function MarkOf(e: E.Event): seq<Label> {
    if e.body.StateEvent? then [e.body.mark] else []
  }

  lemma LabelsSnoc(log: seq<E.Event>, e: E.Event)
    ensures Labels(log + [e]) == Labels(log) + MarkOf(e)
  {
    assert (log + [e])[..|log|] == log;
  }

  ghost predicate HasTerminal(log: seq<E.Event>) {
    exists i :: 0 <= i < |log| && E.IsTerminal(log[i])
  }

  ghost predicate EndsRun(word: seq<Label>) {
    exists i :: 0 <= i < |word| && word[i].Terminal()
  }

  lemma {:induction false} TerminalInLabels(log: seq<E.Event>)
    ensures HasTerminal(log) <==> EndsRun(Labels(log))
  {
    if log != [] {
      var front, last := log[..|log| - 1], log[|log| - 1];
      TerminalInLabels(front);
      var l, m := Labels(front), MarkOf(last);
      if i :| 0 <= i < |log| && E.IsTerminal(log[i]) {
        if i < |front| { assert E.IsTerminal(front[i]); } else { assert (l + m)[|l|] == last.body.mark; }
      }
      if i :| 0 <= i < |l + m| && (l + m)[i].Terminal() {
        if i < |l| {
          assert l[i].Terminal();
          var j :| 0 <= j < |front| && E.IsTerminal(front[j]);
          assert E.IsTerminal(log[j]);
        } else {
          assert E.IsTerminal(log[|log| - 1]);
        }
      }
      if EndsRun(l) {
        var i :| 0 <= i < |l| && l[i].Terminal();
        assert (l + m)[i].Terminal();
      }
    }
  }

  /** A run's word holds a terminal label exactly when the run is finished. */
  lemma WordEndsRun(job: Job)
    requires JobOk(job)
    ensures EndsRun(job.word) <==> !job.status.Active()
  {
    if EndsRun(job.word) {
      var i :| 0 <= i < |job.word| && job.word[i].Terminal();
      TerminalLabelIsLast(job.word, i);
    }
    if !job.status.Active() {
      assert job.word[|job.word| - 1].Terminal();
    }
  }

  // ---------------------------------------------------------------- what always holds

  /** The state events a stored run has emitted. */
  function WordOf(store: Store, r: RunId): seq<Label> {
    if r in store.stored && r in store.jobs then store.jobs[r].word else []
  }

  /** The state events on a run's log are its word while it is stored, and none otherwise. */
  ghost predicate LogsFollow(store: Store, b: E.Bus) {
    forall r :: Labels(E.Log(b, r)) == WordOf(store, r)
  }

  ghost predicate Finished(jobs: map<RunId, Job>, r: RunId) {
    r in jobs && !jobs[r].status.Active()
  }

  /** No queue has heard a terminal state event of a run that is not finished. */
  ghost predicate HeardRight(jobs: map<RunId, Job>, b: E.Bus) {
    forall q :: q in b.heard && q in b.tickets && HasTerminal(b.heard[q]) ==> Finished(jobs, b.tickets[q].run)
  }

  ghost predicate Tied(x: Whole) {
    && I.Inv(x.kernel) && C.Inv(x.registry)
    && LogsFollow(x.kernel.store, x.registry.bus) && HeardRight(x.kernel.store.jobs, x.registry.bus)
  }

  lemma LogTellsFinished(s: K.State, b: E.Bus, r: RunId)
    requires I.Inv(s) && LogsFollow(s.store, b)
    ensures HasTerminal(E.Log(b, r)) <==> r in s.store.stored && Finished(s.store.jobs, r)
  {
    hide I.Inv, LogsFollow, JobOk, HasTerminal, EndsRun, Labels;
    TerminalInLabels(E.Log(b, r));
    LogFollows(s.store, b, r);
    if r in s.store.stored && r in s.store.jobs {
      S.RunIsOk(s, r);
      WordEndsRun(s.store.jobs[r]);
    } else {
      NoLabelsNoEnd();
    }
  }

  lemma LogFollows(store: Store, b: E.Bus, r: RunId)
    requires LogsFollow(store, b)
    ensures Labels(E.Log(b, r)) == WordOf(store, r)
  {
  }

  lemma NoLabelsNoEnd()
    ensures !EndsRun([])
  {
  }

  // ---------------------------------------------------------------- one step of the bus

  /** Nothing about logs and what queues have heard has changed. */
  predicate SameStory(b: E.Bus, b': E.Bus) {
    b'.published == b.published && b'.heard == b.heard && b'.tickets == b.tickets
  }

  lemma SameStoryKeeps(store: Store, b: E.Bus, b': E.Bus)
    requires SameStory(b, b') && LogsFollow(store, b) && HeardRight(store.jobs, b)
    ensures LogsFollow(store, b') && HeardRight(store.jobs, b')
  {
    hide Labels, HasTerminal;
    forall r ensures Labels(E.Log(b', r)) == WordOf(store, r) {
      assert E.Log(b', r) == E.Log(b, r);
      LogFollows(store, b, r);
    }
  }

  lemma PublishedLog(b: E.Bus, r: RunId, e: E.Event, now: Time, x: RunId)
    requires e.num == None
    ensures Labels(E.Log(E.Next(b, E.Publish(r, e, now)), x)) == Labels(E.Log(b, x)) + if x == r then MarkOf(e) else []
  {
    hide Labels;
    LabelsSnoc(E.Log(b, r), e.(num := Some(E.LastSeq(b, r) + 1)));
  }

  lemma HasTerminalSnoc(log: seq<E.Event>, e: E.Event)
    ensures HasTerminal(log + [e]) <==> HasTerminal(log) || E.IsTerminal(e)
  {
    if i :| 0 <= i < |log| && E.IsTerminal(log[i]) { assert E.IsTerminal((log + [e])[i]); }
    assert (log + [e])[|log|] == e;
  }

  /** Subscribed queues hold a ticket for the run they are subscribed to. */
  ghost predicate Ticketed(b: E.Bus) {
    forall r, q :: q in E.Subscribers(b, r) ==> q in b.tickets && b.tickets[q].run == r
  }

  lemma BusIsTicketed(b: E.Bus)
    requires E.BusOk(b)
    ensures Ticketed(b)
  {
    hide E.LogOk, E.StreamFits, E.Numbered, NoDups;
    forall r, q | q in E.Subscribers(b, r) ensures q in b.tickets && b.tickets[q].run == r {
      assert E.StreamOk(b, r, q);
    }
  }

  /** What a publication lets a queue hear: a terminal event only if it is one. */
  lemma PublishedHeard(b: E.Bus, r: RunId, e: E.Event, now: Time, q: E.QueueId)
    requires Ticketed(b) && e.num == None && q in b.heard && q in b.tickets
    ensures var t := E.Next(b, E.Publish(r, e, now));
            && q in t.heard && t.tickets == b.tickets
            && (HasTerminal(t.heard[q]) ==> HasTerminal(b.heard[q]) || (E.IsTerminal(e) && b.tickets[q].run == r))
  {
    hide HasTerminal, E.Prune;
    HasTerminalSnoc(b.heard[q], e.(num := Some(E.LastSeq(b, r) + 1)));
  }

  lemma DroppedLog(b: E.Bus, r: RunId, x: RunId)
    ensures E.Log(E.Next(b, E.DropRun(r)), x) == if x == r then [] else E.Log(b, x)
    ensures E.Next(b, E.DropRun(r)).heard == b.heard && E.Next(b, E.DropRun(r)).tickets == b.tickets
  {
  }

  lemma {:induction false} DropEachFacts(reg: C.Registry, gone: seq<RunId>, x: RunId)
    requires C.Inv(reg)
    ensures C.Inv(DropEach(reg, gone))
    ensures E.Log(DropEach(reg, gone).bus, x) == if x in gone then [] else E.Log(reg.bus, x)
    ensures DropEach(reg, gone).bus.heard == reg.bus.heard && DropEach(reg, gone).bus.tickets == reg.bus.tickets
    decreases |gone|
  {
    hide C.Inv, E.Next;
    if gone != [] {
      C.NextKeepsInv(reg, C.BusStep(E.DropRun(gone[0])));
      DroppedLog(reg.bus, gone[0], x);
      DropEachFacts(C.Next(reg, C.BusStep(E.DropRun(gone[0]))), gone[1..], x);
    }
  }

  // ---------------------------------------------------------------- a step of the kernel

  lemma AnnounceFacts(reg: C.Registry, e: Option<Emission>, ts: Option<Time>, now: Time, x: RunId)
    requires C.Inv(reg)
    ensures C.Inv(Announce(reg, e, ts, now))
    ensures Labels(E.Log(Announce(reg, e, ts, now).bus, x)) == Labels(E.Log(reg.bus, x)) + EmittedFor(e, x)
  {
    hide C.Inv, E.Next, Labels;
    if e.Some? {
      C.NextKeepsInv(reg, C.BusStep(E.Publish(e.value.run, StateEventOf(e.value.mark, ts), now)));
      PublishedLog(reg.bus, e.value.run, StateEventOf(e.value.mark, ts), now, x);
    } else {
      assert Labels(E.Log(reg.bus, x)) + [] == Labels(E.Log(reg.bus, x));
    }
  }

  lemma BusOf(reg: C.Registry)
    requires C.Inv(reg)
    ensures E.BusOk(reg.bus) && Ticketed(reg.bus)
  {
    hide E.BusOk, Ticketed;
    BusIsTicketed(reg.bus);
  }

  lemma AnnounceHeard(
    reg: C.Registry, e: Option<Emission>, ts: Option<Time>, now: Time, jobs: map<RunId, Job>, jobs': map<RunId, Job>)
    requires C.Inv(reg) && HeardRight(jobs, reg.bus)
    requires forall r :: Finished(jobs, r) ==> Finished(jobs', r)
    requires e.Some? && e.value.mark.Terminal() ==> Finished(jobs', e.value.run)
    ensures HeardRight(jobs', Announce(reg, e, ts, now).bus)
  {
    hide C.Inv, E.BusOk, Ticketed, HasTerminal, Finished;
    BusOf(reg);
    if e.Some? {
      var b, t := reg.bus, Announce(reg, e, ts, now).bus;
      forall q | q in t.heard && q in t.tickets && HasTerminal(t.heard[q]) ensures Finished(jobs', t.tickets[q].run) {
        assert q in b.heard && q in b.tickets;
        PublishedHeard(b, e.value.run, StateEventOf(e.value.mark, ts), now, q);
      }
    }
  }

  /** A terminal label leaves its run finished, and finished runs stay so. */
  lemma KernelFinishes(s: K.State, a: K.Action, r: RunId)
    requires I.Inv(s) && K.Enabled(s, a)
    ensures Finished(s.store.jobs, r) ==> Finished(K.Next(s, a).store.jobs, r)
    ensures Emits(s, a).Some? && Emits(s, a).value.run == r && Emits(s, a).value.mark.Terminal() ==>
              Finished(K.Next(s, a).store.jobs, r)
  {
    hide I.Inv, K.Next, K.Enabled, Emits, JobOk, EndsRun;
    S.NextEvolves(s, a);
    A.NextKeepsInv(s, a);
    var e := Emits(s, a);
    if e.Some? && e.value.run == r && e.value.mark.Terminal() {
      EmitterIsStored(s, a);
      NotSubmitted(s, a, r);
      EmitsTheWord(s, a, r);
      S.RunIsOk(K.Next(s, a), r);
      WordEndsRun(K.Next(s, a).store.jobs[r]);
      EndsAtMark(s.store.jobs[r].word, e.value.mark);
    }
  }

  lemma NotSubmitted(s: K.State, a: K.Action, r: RunId)
    requires K.Enabled(s, a) && r in s.store.jobs
    ensures a.Submit? ==> a.inv.runId != r
  {
  }

  lemma EndsAtMark(word: seq<Label>, mark: Label)
    requires mark.Terminal()
    ensures EndsRun(word + [mark])
  {
    assert (word + [mark])[|word|] == mark;
  }

  /** What stays stored and what is new in the store. */
  lemma StoredAfter(s: K.State, a: K.Action, r: RunId)
    requires I.Inv(s) && K.Enabled(s, a)
    ensures r in K.Next(s, a).store.stored ==> r !in Gone(s, a) || (a.PopRun? && a.id == r)
    ensures a.PopRun? && a.id == r ==> r !in K.Next(s, a).store.stored
    ensures r in K.Next(s, a).store.stored && r !in s.store.stored ==>
              a.Submit? && r == a.inv.runId && r in K.Next(s, a).store.jobs && K.Next(s, a).store.jobs[r].word == []
    ensures a.Submit? ==> a.inv.runId !in s.store.stored
    ensures r in s.store.stored ==> r in s.store.jobs
  {
    hide JobOk, I.ItemsKnown, I.AwaitsKnown, I.PlacesRight, I.StatusesFit, I.LogRight, I.LocksMatch, I.Fifo;
    hide StartJob, SettleJob, CancelJob, Retention.Survives;
  }

  lemma KernelStepFollows(x: Whole, a: K.Action, ts: Option<Time>, now: Time, gone: seq<RunId>, r: RunId)
    requires Tied(x) && Can(x, KernelStep(a, ts, now, gone))
    ensures var y := After(x, KernelStep(a, ts, now, gone));
            Labels(E.Log(y.registry.bus, r)) == WordOf(y.kernel.store, r)
  {
    hide I.Inv, C.Inv, K.Next, K.Enabled, Emits, Labels, LogsFollow, HeardRight, Gone;
    var s, t, e := x.kernel, K.Next(x.kernel, a), Emits(x.kernel, a);
    AnnounceFacts(x.registry, e, ts, now, r);
    DropEachFacts(Announce(x.registry, e, ts, now), gone, r);
    LogFollows(s.store, x.registry.bus, r);
    StoredAfter(s, a, r);
    EmptyLabels();
    if e.Some? { EmitterIsStored(s, a); NotSubmitted(s, a, e.value.run); }
    assert r in gone <==> r in Gone(s, a) by { assert r in gone <==> r in Elems(gone); }
    GoneIs(s, a, r);
    if r in s.store.stored {
      NotSubmitted(s, a, r);
      EmitsTheWord(s, a, r);
    } else {
      assert Labels(E.Log(x.registry.bus, r)) + [] == [];
    }
  }

  lemma GoneIs(s: K.State, a: K.Action, r: RunId)
    requires K.Enabled(s, a)
    ensures r in Gone(s, a) <==> (r in s.store.stored && r !in K.Next(s, a).store.stored) || (a.PopRun? && a.id == r)
  {
  }

  lemma EmptyLabels()
    ensures Labels([]) == []
  {
  }

  lemma KernelKeepsLogs(x: Whole, a: K.Action, ts: Option<Time>, now: Time, gone: seq<RunId>)
    requires Tied(x) && Can(x, KernelStep(a, ts, now, gone))
    ensures var y := After(x, KernelStep(a, ts, now, gone));
            LogsFollow(y.kernel.store, y.registry.bus)
  {
    hide Tied, Can, After, Labels;
    var y := After(x, KernelStep(a, ts, now, gone));
    forall r
      ensures Labels(E.Log(y.registry.bus, r)) == WordOf(y.kernel.store, r)
    {
      KernelStepFollows(x, a, ts, now, gone, r);
    }
  }

  lemma KernelKeepsHeard(x: Whole, a: K.Action, ts: Option<Time>, now: Time, gone: seq<RunId>)
    requires Tied(x) && Can(x, KernelStep(a, ts, now, gone))
    ensures var y := After(x, KernelStep(a, ts, now, gone));
            C.Inv(y.registry) && HeardRight(y.kernel.store.jobs, y.registry.bus)
  {
    hide I.Inv, C.Inv, K.Next, K.Enabled, Emits, Labels, LogsFollow, HeardRight, Gone, Finished, E.Next;
    var e, jobs, jobs' := Emits(x.kernel, a), x.kernel.store.jobs, K.Next(x.kernel, a).store.jobs;
    forall r ensures Finished(jobs, r) ==> Finished(jobs', r) {
      KernelFinishes(x.kernel, a, r);
    }
    if e.Some? { KernelFinishes(x.kernel, a, e.value.run); }
    AnnounceHeard(x.registry, e, ts, now, jobs, jobs');
    AnnounceFacts(x.registry, e, ts, now, "");
    var announced := Announce(x.registry, e, ts, now);
    DropEachFacts(announced, gone, "");
    HeardAlike(jobs', announced.bus, DropEach(announced, gone).bus);
  }

  lemma KernelStepKeepsTied(x: Whole, a: K.Action, ts: Option<Time>, now: Time, gone: seq<RunId>)
    requires Tied(x) && Can(x, KernelStep(a, ts, now, gone))
    ensures Tied(After(x, KernelStep(a, ts, now, gone)))
  {
    hide I.Inv, C.Inv, K.Next, K.Enabled, Emits, LogsFollow, HeardRight, Gone, DropEach, Announce;
    A.NextKeepsInv(x.kernel, a);
    KernelKeepsLogs(x, a, ts, now, gone);
    KernelKeepsHeard(x, a, ts, now, gone);
  }

  lemma HeardAlike(jobs: map<RunId, Job>, b: E.Bus, b': E.Bus)
    requires HeardRight(jobs, b) && b'.heard == b.heard && b'.tickets == b.tickets
    ensures HeardRight(jobs, b')
  {
    hide HasTerminal;
  }

  // ---------------------------------------------------------------- a step of the registry

  lemma CancelKeepsStory(reg: C.Registry, id: C.SubId)
    ensures SameStory(reg.bus, C.CancelWatch(reg, id).bus)
  {
  }

  lemma {:induction false} CancelAllKeepsStory(reg: C.Registry, ids: seq<C.SubId>)
    ensures SameStory(reg.bus, C.CancelAll(reg, ids).bus)
    decreases |ids|
  {
    hide C.CancelWatch;
    if ids != [] {
      CancelKeepsStory(reg, ids[0]);
      CancelAllKeepsStory(C.CancelWatch(reg, ids[0]), ids[1..]);
    }
  }

  predicate Tells(c: C.Action) {
    c.Register? || (c.BusStep? && (c.a.Publish? || c.a.Subscribe? || c.a.DropRun?))
  }

  lemma UnsubscribeSameStory(b: E.Bus, r: RunId, q: E.QueueId)
    ensures SameStory(b, E.Next(b, E.Unsubscribe(r, q)))
  {
  }

  lemma ReaderSameStory(b: E.Bus, x: E.Action)
    requires E.Enabled(b, x) && (x.Take? || x.Unsubscribe?)
    ensures SameStory(b, E.Next(b, x))
  {
  }

  lemma DeliverSameStory(reg: C.Registry, id: C.SubId)
    requires C.Enabled(reg, C.Advance(id))
    ensures SameStory(reg.bus, C.Next(reg, C.Advance(id)).bus)
  {
    hide C.Without, E.Next;
    var w := reg.watches[id];
    if w.stage.Getting? {
      var taken := E.Next(reg.bus, E.Take(w.queue));
      ReaderSameStory(reg.bus, E.Take(w.queue));
      UnsubscribeSameStory(taken, w.run, w.queue);
    }
  }

  lemma OthersKeepStory(reg: C.Registry, c: C.Action)
    requires C.Enabled(reg, c) && !Tells(c)
    ensures SameStory(reg.bus, C.Next(reg, c).bus)
  {
    hide C.CancelWatch, C.CancelAll, C.Without, C.ElemsOf, C.Watched, E.Next;
    forall r, q ensures SameStory(reg.bus, E.Next(reg.bus, E.Unsubscribe(r, q))) {
      UnsubscribeSameStory(reg.bus, r, q);
    }
    match c {
      case BusStep(x) => { ReaderSameStory(reg.bus, x); }
      case Advance(id) => { DeliverSameStory(reg, id); }
      case Close => { CancelAllKeepsStory(reg.(subs := []), reg.subs); }
      case Unregister(id) => { CancelKeepsStory(reg.(subs := C.Without(reg.subs, id)), id); }
      case RunScheduled(id) => { CancelKeepsStory(reg, id); }
      case _ => {}
    }
  }

  /** A new queue has heard the log as it stands. */
  lemma SubscribeKeepsStory(s: K.State, b: E.Bus, r: RunId, q: E.QueueId, since: Option<int>)
    requires I.Inv(s) && LogsFollow(s.store, b) && HeardRight(s.store.jobs, b) && q !in b.queues
    ensures var t := E.Next(b, E.Subscribe(r, q, since));
            LogsFollow(s.store, t) && HeardRight(s.store.jobs, t)
  {
    hide I.Inv, Labels, HasTerminal, Finished, E.Replay;
    var t := E.Next(b, E.Subscribe(r, q, since));
    LogTellsFinished(s, b, r);
    forall x ensures Labels(E.Log(t, x)) == WordOf(s.store, x) {
      assert E.Log(t, x) == E.Log(b, x);
      LogFollows(s.store, b, x);
    }
    forall p | p in t.heard && p in t.tickets && HasTerminal(t.heard[p])
      ensures Finished(s.store.jobs, t.tickets[p].run)
    {
      if p != q { assert p in b.heard && p in b.tickets; }
    }
  }

  /** Events that are not state events change neither labels nor what has been heard of ends. */
  lemma OutputKeepsStory(s: K.State, b: E.Bus, r: RunId, e: E.Event, now: Time)
    requires Ticketed(b) && e.num == None && !e.body.StateEvent?
    requires LogsFollow(s.store, b) && HeardRight(s.store.jobs, b)
    ensures var t := E.Next(b, E.Publish(r, e, now));
            LogsFollow(s.store, t) && HeardRight(s.store.jobs, t)
  {
    hide Ticketed, Labels, HasTerminal, Finished, E.Next;
    var t := E.Next(b, E.Publish(r, e, now));
    forall x ensures Labels(E.Log(t, x)) == WordOf(s.store, x) {
      PublishedLog(b, r, e, now, x);
      LogFollows(s.store, b, x);
      assert Labels(E.Log(b, x)) + [] == Labels(E.Log(b, x));
    }
    forall q | q in t.heard && q in t.tickets && HasTerminal(t.heard[q])
      ensures Finished(s.store.jobs, t.tickets[q].run)
    {
      HeardBefore(b, r, e, now, q);
      PublishedHeard(b, r, e, now, q);
    }
  }

  lemma HeardBefore(b: E.Bus, r: RunId, e: E.Event, now: Time, q: E.QueueId)
    requires e.num == None
    ensures var t := E.Next(b, E.Publish(r, e, now));
            q in t.heard && q in t.tickets ==> q in b.heard && q in b.tickets
  {
  }

  lemma WatchStepKeepsTied(x: Whole, c: C.Action)
    requires Tied(x) && Can(x, WatchStep(c))
    ensures Tied(After(x, WatchStep(c)))
  {
    hide I.Inv, C.Inv, LogsFollow, HeardRight, E.Next;
    C.NextKeepsInv(x.registry, c);
    BusOf(x.registry);
    if !Tells(c) {
      OthersKeepStory(x.registry, c);
      SameStoryKeeps(x.kernel.store, x.registry.bus, C.Next(x.registry, c).bus);
    } else if c.Register? {
      SubscribeKeepsStory(x.kernel, x.registry.bus, c.r, c.q, Some(0));
    } else if c.a.Subscribe? {
      SubscribeKeepsStory(x.kernel, x.registry.bus, c.a.r, c.a.q, c.a.since);
    } else {
      OutputKeepsStory(x.kernel, x.registry.bus, c.a.r, c.a.e, c.a.now);
    }
  }

  // ---------------------------------------------------------------- runs of the whole

  ghost predicate Legal(x: Whole, acts: seq<Act>)
    decreases |acts|
  {
    acts == [] || (Can(x, acts[0]) && Legal(After(x, acts[0]), acts[1..]))
  }

  ghost function Exec(x: Whole, acts: seq<Act>): Whole
    requires Legal(x, acts)
    decreases |acts|
  {
    if acts == [] then x else Exec(After(x, acts[0]), acts[1..])
  }

  lemma {:induction false} ExecKeepsTied(x: Whole, acts: seq<Act>)
    requires Tied(x) && Legal(x, acts)
    ensures Tied(Exec(x, acts))
    decreases |acts|
  {
    hide Tied, After, Can;
    if acts != [] {
      match acts[0] {
        case KernelStep(a, ts, now, gone) => { KernelStepKeepsTied(x, a, ts, now, gone); }
        case WatchStep(c) => { WatchStepKeepsTied(x, c); }
      }
      ExecKeepsTied(After(x, acts[0]), acts[1..]);
    }
  }

  function Beginning(limits: Retention.Limits, n: nat, cfg: E.Config): Whole {
    Whole(K.Init(limits, n), R.EmptyRegistry(cfg))
  }

  ghost predicate ReachableBy(limits: Retention.Limits, n: nat, cfg: E.Config, acts: seq<Act>, x: Whole) {
    Legal(Beginning(limits, n, cfg), acts) && x == Exec(Beginning(limits, n, cfg), acts)
  }

  lemma BeginningTied(limits: Retention.Limits, n: nat, cfg: E.Config)
    ensures Tied(Beginning(limits, n, cfg))
  {
    I.InitInv(limits, n);
    R.EmptyInv(cfg);
    hide I.Inv, C.Inv;
  }

  lemma ReachableTied(limits: Retention.Limits, n: nat, cfg: E.Config, acts: seq<Act>, x: Whole)
    requires ReachableBy(limits, n, cfg, acts, x)
    ensures Tied(x)
  {
    hide Tied;
    BeginningTied(limits, n, cfg);
    ExecKeepsTied(Beginning(limits, n, cfg), acts);
  }

  // ---------------------------------------------------------------- main results

  /** While a run is stored, the state events on its log are exactly its word, so they tell its status. */
  lemma LogTellsStatus(limits: Retention.Limits, n: nat, cfg: E.Config, acts: seq<Act>, x: Whole, r: RunId)
    requires ReachableBy(limits, n, cfg, acts, x) && r in x.kernel.store.stored
    ensures r in x.kernel.store.jobs
    ensures Labels(E.Log(x.registry.bus, r)) == x.kernel.store.jobs[r].word
    ensures Meaning(Labels(E.Log(x.registry.bus, r))) == Some(x.kernel.store.jobs[r].status)
  {
    hide I.Inv, C.Inv, HeardRight, Labels, ReachableBy;
    ReachableTied(limits, n, cfg, acts, x);
    StoredJob(x.kernel, r);
  }

  lemma StoredJob(s: K.State, r: RunId)
    requires I.Inv(s) && r in s.store.stored
    ensures r in s.store.jobs && Meaning(s.store.jobs[r].word) == Some(s.store.jobs[r].status)
  {
    hide I.ItemsKnown, I.AwaitsKnown, I.PlacesRight, I.StatusesFit, I.LogRight, I.LocksMatch, I.Fifo;
  }

  /**
   * A watch nobody cancels finishes only if its run has; and one that has stopped without finishing, while still
   * subscribed to a stored run, has missed nothing: the run is unfinished, or its terminal event had already been
   * pruned when the watch was registered.
   */
  lemma WatchFollowsRun(limits: Retention.Limits, n: nat, cfg: E.Config, acts: seq<Act>, x: Whole, id: C.SubId)
    requires ReachableBy(limits, n, cfg, acts, x) && R.Stopped(x.registry, id)
    ensures
      var w, b, jobs := x.registry.watches[id], x.registry.bus, x.kernel.store.jobs;
      && w.queue in b.tickets && w.queue in b.heard
      && (w.stage == C.Ended(true) ==> Finished(jobs, w.run))
      && (w.queue in E.Subscribers(b, w.run) && w.run in x.kernel.store.stored ==>
            && w.stage != C.Ended(true) && b.heard[w.queue] == E.Log(b, w.run)
            && (Finished(jobs, w.run) <==>
                  exists k :: 0 <= k < b.tickets[w.queue].pruned && k < |E.Log(b, w.run)|
                              && E.IsTerminal(E.Log(b, w.run)[k])))
  {
    hide I.Inv, C.Inv, LogsFollow, Finished, ReachableBy, R.OwnStep;
    ReachableTied(limits, n, cfg, acts, x);
    var w, b, jobs := x.registry.watches[id], x.registry.bus, x.kernel.store.jobs;
    R.WatchFacts(x.registry, id);
    R.StoppedIsFinished(x.registry, id);
    LogTellsFinished(x.kernel, b, w.run);
    var heard, cut := b.heard[w.queue], b.tickets[w.queue].pruned;
    if w.stage == C.Ended(true) {
      var k :| R.FirstTerminal(heard, cut, k);
      assert HasTerminal(heard);
    }
    if w.queue in E.Subscribers(b, w.run) && w.run in x.kernel.store.stored {
      BusOf(x.registry);
      SubscribedHears(b, w.run, w.queue);
      EndedIsUnsubscribed(x.registry, id);
      if HasTerminal(heard) {
        var k :| 0 <= k < |heard| && E.IsTerminal(heard[k]);
        if k >= cut { SomeFirst(heard, cut, k); }
      }
    }
  }

  lemma SubscribedHears(b: E.Bus, r: RunId, q: E.QueueId)
    requires E.BusOk(b) && q in E.Subscribers(b, r)
    ensures q in b.heard && b.heard[q] == E.Log(b, r)
  {
    hide E.LogOk, E.StreamFits, E.Numbered, NoDups;
    assert E.StreamOk(b, r, q);
  }

  lemma EndedIsUnsubscribed(reg: C.Registry, id: C.SubId)
    requires C.Inv(reg) && id in reg.watches
    ensures reg.watches[id].stage.Ended? ==> reg.watches[id].queue !in E.Subscribers(reg.bus, reg.watches[id].run)
  {
    hide E.BusOk, C.CallsFit;
    assert C.WatchOk(reg.bus, id in reg.subs, reg.watches[id]);
  }

  lemma {:induction false} SomeFirst(log: seq<E.Event>, cut: nat, k: nat)
    requires cut <= k < |log| && E.IsTerminal(log[k])
    ensures exists i :: R.FirstTerminal(log, cut, i)
  {
    if j :| cut <= j < k && E.IsTerminal(log[j]) {
      SomeFirst(log, cut, j);
    } else {
      assert R.FirstTerminal(log, cut, k);
    }
  }
}
