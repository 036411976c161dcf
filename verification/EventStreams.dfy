/** What a subscriber receives, what resuming it gives, and what the history retains, in every reachable bus. */
module EventStreams {
  import opened Basics
  import opened Events

  /** What a subscriber has been given: what its reader took, then what still waits in its queue. */
  function Received(b: Bus, q: QueueId): seq<Event>
    requires q in b.taken && q in b.queues
  {
    b.taken[q] + b.queues[q]
  }

  lemma SubscriberHasTicket(cfg: Config, acts: seq<Action>, b: Bus, r: RunId, q: QueueId)
    requires ReachableBy(cfg, acts, b) && q in Subscribers(b, r)
    ensures StreamOk(b, r, q) && LogOk(b, r)
  {
    ReachableOk(cfg, acts, b);
  }

  /**
   * Replay joined to live delivery has no gap and no duplicate: a subscriber since s >= 0 has received exactly the
   * events numbered above s and above what was pruned when it subscribed, in order. The one exception is a
   * since_seq beyond the last number published at that moment, once anything more is published: live delivery does
   * not look at since_seq.
   */
  lemma ReplayThenLive(cfg: Config, acts: seq<Action>, b: Bus, r: RunId, q: QueueId)
    requires ReachableBy(cfg, acts, b) && q in Subscribers(b, r)
    ensures StreamOk(b, r, q)
    ensures
      var t := b.tickets[q];
      t.since.Some? && t.since.value >= 0 ==>
        (Received(b, q) == Above(Log(b, r), Max(t.since.value, t.pruned))
         <==> t.since.value <= t.mark || |Log(b, r)| == t.mark)
  {
    SubscriberHasTicket(cfg, acts, b, r, q);
    var t, log := b.tickets[q], Log(b, r);
    if t.since.Some? && t.since.value >= 0 {
      AboveIsTail(log, 0, Max(t.since.value, t.pruned));
      assert log[0..] == log;
    }
  }

  /** A negative or missing since_seq asks for no replay: exactly what was published after subscribing. */
  lemma LiveOnly(cfg: Config, acts: seq<Action>, b: Bus, r: RunId, q: QueueId)
    requires ReachableBy(cfg, acts, b) && q in Subscribers(b, r)
    requires q in b.tickets && (b.tickets[q].since == None || b.tickets[q].since.value < 0)
    ensures StreamOk(b, r, q)
    ensures Received(b, q) == Above(Log(b, r), b.tickets[q].mark)
  {
    SubscriberHasTicket(cfg, acts, b, r, q);
    AboveIsTail(Log(b, r), 0, b.tickets[q].mark);
    assert Log(b, r)[0..] == Log(b, r);
  }

  // ---------------------------------------------------------------- resuming

  /** A queue keeps its ticket; a new queue's ticket is marked with the log it found. */
  lemma StepKeepsTickets(b: Bus, a: Action, q: QueueId)
    requires Enabled(b, a)
    ensures q in b.queues && q in b.tickets ==>
              q in Next(b, a).queues && q in Next(b, a).tickets && Next(b, a).tickets[q] == b.tickets[q]
    ensures q in Next(b, a).queues && q !in b.queues ==>
              q in Next(b, a).tickets && Next(b, a).tickets[q].mark == |Log(b, Next(b, a).tickets[q].run)|
  {
  }

  lemma StepGrows(b: Bus, a: Action, r: RunId)
    requires Enabled(b, a) && a != DropRun(r)
    ensures Log(b, r) <= Log(Next(b, a), r)
  {
  }

  lemma {:induction false} TicketStays(b: Bus, acts: seq<Action>, q: QueueId)
    requires Legal(b, acts) && q in b.queues && q in b.tickets
    ensures q in Exec(b, acts).tickets && Exec(b, acts).tickets[q] == b.tickets[q]
    decreases |acts|
  {
    hide Next;
    if acts != [] {
      StepKeepsTickets(b, acts[0], q);
      TicketStays(Next(b, acts[0]), acts[1..], q);
    }
  }

  /** Without a drop the log only grows, and whoever subscribes later finds at least the log of now. */
  lemma {:induction false} RunGrows(b: Bus, acts: seq<Action>, r: RunId, q: QueueId)
    requires Legal(b, acts) && DropRun(r) !in acts && q !in b.queues
    ensures Log(b, r) <= Log(Exec(b, acts), r)
    ensures q in Exec(b, acts).queues ==>
              && q in Exec(b, acts).tickets
              && (Exec(b, acts).tickets[q].run == r ==> Exec(b, acts).tickets[q].mark >= |Log(b, r)|)
    decreases |acts|
  {
    hide Next;
    if acts != [] {
      var c := Next(b, acts[0]);
      StepGrows(b, acts[0], r);
      StepKeepsTickets(b, acts[0], q);
      if q in c.queues {
        TicketStays(c, acts[1..], q);
        LogGrows(c, acts[1..], r);
      } else {
        RunGrows(c, acts[1..], r, q);
      }
    }
  }

  lemma {:induction false} LogGrows(b: Bus, acts: seq<Action>, r: RunId)
    requires Legal(b, acts) && DropRun(r) !in acts
    ensures Log(b, r) <= Log(Exec(b, acts), r)
    decreases |acts|
  {
    hide Next;
    if acts != [] {
      StepGrows(b, acts[0], r);
      LogGrows(Next(b, acts[0]), acts[1..], r);
    }
  }

  lemma {:induction false} LegalConcat(b: Bus, first: seq<Action>, then_: seq<Action>)
    requires Legal(b, first) && Legal(Exec(b, first), then_)
    ensures Legal(b, first + then_) && Exec(b, first + then_) == Exec(Exec(b, first), then_)
    decreases |first|
  {
    hide Next, Enabled;
    if first == [] {
      assert first + then_ == then_;
    } else {
      assert (first + then_)[1..] == first[1..] + then_;
      LegalConcat(Next(b, first[0]), first[1..], then_);
    }
  }

  /** The number of the last event a reader has taken. */
  function LastTaken(b: Bus, q: QueueId): nat
    requires q in b.taken && b.taken[q] != []
  {
    SeqOf(b.taken[q][|b.taken[q]| - 1])
  }

  /**
   * A reader stops having taken event k; whatever happens then short of dropping the run, a subscription since k
   * continues its stream without a gap or a duplicate exactly when nothing above k had been pruned.
   */
  lemma ResumptionIsSeamless(cfg: Config, before: seq<Action>, b: Bus, r: RunId, q: QueueId,
                             after: seq<Action>, d: Bus, again: QueueId)
    requires ReachableBy(cfg, before, b) && q in Subscribers(b, r)
    requires q in b.taken && b.taken[q] != []
    requires Legal(b, after) && DropRun(r) !in after && d == Exec(b, after)
    requires again !in b.queues && again in Subscribers(d, r)
    requires again in d.tickets && d.tickets[again].since == Some(LastTaken(b, q))
    ensures StreamOk(b, r, q) && StreamOk(d, r, again) && Log(b, r) <= Log(d, r)
    ensures b.taken[q] + Received(d, again) == Log(d, r)[CutOf(b.tickets[q])..]
            <==> d.tickets[again].pruned <= LastTaken(b, q)
  {
    SubscriberHasTicket(cfg, before, b, r, q);
    LegalConcat(EmptyBus(cfg), before, after);
    SubscriberHasTicket(cfg, before + after, d, r, again);
    RunGrows(b, after, r, again);
    hide Legal, Exec, Next, Subscribers, History;
    SeamOnTheLog(b.tickets[q], b.taken[q], b.queues[q], Log(b, r), d.tickets[again], Received(d, again), Log(d, r));
  }

  lemma SeamOnTheLog(t: Ticket, taken: seq<Event>, waiting: seq<Event>, log: seq<Event>,
                     u: Ticket, received: seq<Event>, later: seq<Event>)
    requires Numbered(log) && StreamFits(t, taken, waiting, log) && taken != []
    requires log <= later && u.pruned <= u.mark <= |later| && received == later[CutOf(u)..]
    requires u.since == Some(SeqOf(taken[|taken| - 1])) && u.mark >= |log|
    ensures taken + received == later[CutOf(t)..] <==> u.pruned <= SeqOf(taken[|taken| - 1])
  {
    var cut, n := CutOf(t), |taken|;
    assert taken == log[cut..][..n] by { assert taken == (taken + waiting)[..n]; }
    assert taken[n - 1] == log[cut + n - 1];
    var k := cut + n;
    assert SeqOf(taken[n - 1]) == k;
    assert taken == later[cut..k];
    assert CutOf(u) == if u.pruned <= k then k else u.pruned;
    if u.pruned <= k {
      assert later[cut..k] + later[k..] == later[cut..];
    }
  }

  // ---------------------------------------------------------------- what is retained

  /** The history of a run is a contiguous, consecutively numbered suffix of its log, cut by cap and TTL only. */
  lemma HistoryIsTail(cfg: Config, acts: seq<Action>, b: Bus, r: RunId)
    requires ReachableBy(cfg, acts, b)
    ensures
      var (log, h) := (Log(b, r), History(b, r));
      && IsSuffix(h, log)
      && (forall i :: 0 <= i < |h| ==> h[i].num == Some(|log| - |h| + i + 1))
      && (b.cfg.maxEvents.Some? && b.cfg.maxEvents.value >= 1 ==> |h| <= b.cfg.maxEvents.value)
      && (b.cfg.ttl.None? ==>
            && |h| == (if b.cfg.maxEvents.Some? && 1 <= b.cfg.maxEvents.value <= |log|
                       then b.cfg.maxEvents.value else |log|))
  {
    ReachableOk(cfg, acts, b);
    assert LogOk(b, r);
  }

  /** Event e is within the TTL, or bears no stamp, at each publication on run r among the actions. */
  ghost predicate InTime(cfg: Config, e: Event, acts: seq<Action>, r: RunId) {
    forall i :: 0 <= i < |acts| && acts[i].Publish? && acts[i].r == r ==> NotOutdated(cfg, e, acts[i].now)
  }

  predicate NotOutdated(cfg: Config, e: Event, now: Time) {
    cfg.ttl == None || e.ts == None || e.ts.value >= now - cfg.ttl.value
  }

  /** The k-th event of the log is still retained, or the cap's worth of later ones has been published. */
  predicate ThereUnlessCapped(b: Bus, r: RunId, k: nat) {
    || k >= |Log(b, r)| - |History(b, r)|
    || (b.cfg.maxEvents.Some? && 1 <= b.cfg.maxEvents.value < |Log(b, r)| - k)
  }

  lemma StepRetains(b: Bus, a: Action, r: RunId, k: nat, e: Event)
    requires BusOk(b) && Enabled(b, a) && a != DropRun(r) && ThereUnlessCapped(b, r, k)
    requires k < |Log(Next(b, a), r)| ==> Log(Next(b, a), r)[k] == e
    requires a.Publish? && a.r == r ==> NotOutdated(b.cfg, e, a.now)
    ensures ThereUnlessCapped(Next(b, a), r, k)
  {
    hide Prune, QueueOk, StreamOk;
    assert LogOk(b, r);
    hide BusOk;
    if a.Publish? && a.r == r {
      var numbered := a.e.(num := Some(LastSeq(b, r) + 1));
      PublishRetains(b.cfg, Log(b, r), History(b, r), numbered, a.now, k, e);
    }
  }

  lemma PublishRetains(cfg: Config, log: seq<Event>, h: seq<Event>, last: Event, now: Time, k: nat, e: Event)
    requires IsSuffix(h, log) && NotOutdated(cfg, e, now)
    requires k < |log| + 1 ==> (log + [last])[k] == e
    requires k >= |log| - |h| || (cfg.maxEvents.Some? && 1 <= cfg.maxEvents.value < |log| - k)
    ensures var kept := Prune(h + [last], cfg, now);
            k >= |log| + 1 - |kept| || (cfg.maxEvents.Some? && 1 <= cfg.maxEvents.value < |log| + 1 - k)
  {
    hide Prune;
    PruneKeepsTheLatest(h + [last], cfg, now);
    var m: nat :| OutdatedInFront(h + [last], cfg, now, m)
                  && LatestOf(h + [last], m, cfg.maxEvents, Prune(h + [last], cfg, now));
    var from := |log| - |h|;
    if from <= k < |log| + 1 {
      assert (h + [last])[k - from] == e;
    }
  }

  lemma {:induction false} ExecRetains(b: Bus, acts: seq<Action>, r: RunId, k: nat)
    requires BusOk(b) && Legal(b, acts) && DropRun(r) !in acts && ThereUnlessCapped(b, r, k)
    requires k < |Log(Exec(b, acts), r)| && InTime(b.cfg, Log(Exec(b, acts), r)[k], acts, r)
    ensures ThereUnlessCapped(Exec(b, acts), r, k)
    decreases |acts|
  {
    hide BusOk, Next, Enabled, ThereUnlessCapped, NotOutdated, Log;
    if acts != [] {
      var c := Next(b, acts[0]);
      NextOk(b, acts[0]);
      ConfigStays(b, acts[0]);
      LogGrows(c, acts[1..], r);
      StepRetains(b, acts[0], r, k, Log(Exec(b, acts), r)[k]);
      ExecRetains(c, acts[1..], r, k);
    }
  }

  lemma ConfigStays(b: Bus, a: Action)
    requires Enabled(b, a)
    ensures Next(b, a).cfg == b.cfg
  {
  }

  /**
   * The TTL takes nothing that is in time: an event that is retained, or yet to be published, and at no publication
   * from then on is outdated, is retained still, together with all that followed it, unless the cap's worth of later
   * events has been published.
   */
  lemma TimelyEventsAreRetained(
    cfg: Config, before: seq<Action>, b: Bus, r: RunId, after: seq<Action>, c: Bus, k: nat)
    requires ReachableBy(cfg, before, b) && Legal(b, after) && c == Exec(b, after) && DropRun(r) !in after
    requires |Log(b, r)| - |History(b, r)| <= k < |Log(c, r)|
    requires b.cfg.ttl.Some? && Log(c, r)[k].ts.Some? ==>
               forall i :: 0 <= i < |after| && after[i].Publish? && after[i].r == r ==>
                             Log(c, r)[k].ts.value >= after[i].now - b.cfg.ttl.value
    ensures c.cfg == b.cfg
    ensures || k >= |Log(c, r)| - |History(c, r)|
            || (c.cfg.maxEvents.Some? && 1 <= c.cfg.maxEvents.value < |Log(c, r)| - k)
  {
    hide BusOk, Next, Enabled, Log, History;
    ReachableOk(cfg, before, b);
    ExecRetains(b, after, r, k);
    ConfigStaysOver(b, after);
  }

  lemma {:induction false} ConfigStaysOver(b: Bus, acts: seq<Action>)
    requires Legal(b, acts)
    ensures Exec(b, acts).cfg == b.cfg
    decreases |acts|
  {
    hide Next, Enabled;
    if acts != [] {
      ConfigStays(b, acts[0]);
      ConfigStaysOver(Next(b, acts[0]), acts[1..]);
    }
  }

  /** Without a TTL, the cap bounds the history of a run that has published anything if and only if it is not 0. */
  lemma CapBoundsUnlessZero(cfg: Config, acts: seq<Action>, b: Bus, r: RunId)
    requires ReachableBy(cfg, acts, b)
    requires b.cfg.ttl.None? && b.cfg.maxEvents.Some? && b.cfg.maxEvents.value >= 0
    ensures |History(b, r)| <= b.cfg.maxEvents.value <==> b.cfg.maxEvents.value >= 1 || Log(b, r) == []
  {
    ReachableOk(cfg, acts, b);
    assert LogOk(b, r);
  }

  // ---------------------------------------------------------------- where the conditions fail

  lemma TwoSteps(cfg: Config, a: Action, a': Action)
    requires Enabled(EmptyBus(cfg), a) && Enabled(Next(EmptyBus(cfg), a), a')
    ensures ReachableBy(cfg, [a, a'], Next(Next(EmptyBus(cfg), a), a'))
  {
    hide Next, Enabled;
    var b := Next(EmptyBus(cfg), a);
    assert [a, a'][1..] == [a'] && [a'][1..] == [];
    assert Legal(Next(b, a'), []) && Legal(b, [a']);
    assert Exec(b, [a']) == Next(b, a');
  }

  /** A subscriber that asks for events after s > 0 on a run without any is then sent event 1. */
  lemma SinceBeyondLogIsIgnored(cfg: Config, r: RunId, q: QueueId, s: nat, e: Event, now: Time)
    requires s > 0 && e.num == None
    ensures exists acts, b :: ReachableBy(cfg, acts, b) && q in Subscribers(b, r) && StreamOk(b, r, q)
                              && b.tickets[q].since == Some(s) && Received(b, q) == [e.(num := Some(1))]
  {
    hide Prune;
    var a, a' := Subscribe(r, q, Some(s)), Publish(r, e, now);
    var b := Next(EmptyBus(cfg), a);
    var c := Next(b, a');
    TwoSteps(cfg, a, a');
    assert Subscribers(b, r) == [q] && q in Subscribers(c, r);
    assert c.taken[q] + c.queues[q] == [e.(num := Some(1))];
    SubscriberHasTicket(cfg, [a, a'], c, r, q);
  }

  /** A cap of 0 keeps all events. */
  lemma CapZeroKeepsEvents(r: RunId, e: Event, e': Event, now: Time)
    requires e.num == None && e'.num == None
    ensures exists acts, b :: ReachableBy(Config(Some(0), None), acts, b) && |History(b, r)| == 2
  {
    var cfg := Config(Some(0), None);
    var a, a' := Publish(r, e, now), Publish(r, e', now);
    TwoSteps(cfg, a, a');
    var c := Next(Next(EmptyBus(cfg), a), a');
    assert |History(c, r)| == 2;
    assert ReachableBy(cfg, [a, a'], c);
  }
}
