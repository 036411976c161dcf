/** A numbered event log per run: history with pruning, live fan-out to queues, and replay on subscription. */
module Events {
  import opened Basics
  import Jobs

  type QueueId = nat

  datatype Body = StateEvent(mark: Jobs.Label) | OutputEvent(text: string)

  /** `num`, the event's seq, is None until the executor numbers the event; `ts` may be missing. */
  datatype Event = Event(num: Option<nat>, ts: Option<Time>, body: Body)

  datatype Config = Config(maxEvents: Option<int>, ttl: Option<Time>)

  /** getattr(event, "seq", 0) or 0. */
  function SeqOf(e: Event): nat {
    if e.num.Some? then e.num.value else 0
  }

  predicate IsTerminal(e: Event) {
    e.body.StateEvent? && e.body.mark.Terminal()
  }

  // ---------------------------------------------------------------- pruning

  predicate Stale(e: Event, cutoff: Time) {
    e.ts.Some? && e.ts.value < cutoff
  }

  /** Drops stale events from the front, stopping at the first that is not. */
  function DropStale(h: seq<Event>, cutoff: Time): seq<Event> {
    if h != [] && Stale(h[0], cutoff) then DropStale(h[1..], cutoff) else h
  }

  /** del history[:-cap] when the history is longer than cap; for cap 0 the slice is empty and nothing goes. */
  function Capped(h: seq<Event>, cap: Option<int>): seq<Event> {
    if cap.Some? && 0 < cap.value < |h| then h[|h| - cap.value..] else h
  }

  function Prune(h: seq<Event>, cfg: Config, now: Time): seq<Event> {
    Capped(if cfg.ttl.Some? then DropStale(h, now - cfg.ttl.value) else h, cfg.maxEvents)
  }

  ghost predicate IsSuffix(h: seq<Event>, log: seq<Event>) {
    |h| <= |log| && h == log[|log| - |h|..]
  }

  lemma {:induction false} DropStaleIsSuffix(h: seq<Event>, cutoff: Time)
    ensures IsSuffix(DropStale(h, cutoff), h)
  {
    if h != [] && Stale(h[0], cutoff) {
      DropStaleIsSuffix(h[1..], cutoff);
      var kept := DropStale(h[1..], cutoff);
      assert h[1..][|h| - 1 - |kept|..] == h[|h| - |kept|..];
    }
  }

  lemma SuffixTransitive(a: seq<Event>, b: seq<Event>, c: seq<Event>)
    requires IsSuffix(a, b) && IsSuffix(b, c)
    ensures IsSuffix(a, c)
  {
  }

  lemma CappedIsSuffix(h: seq<Event>, cap: Option<int>)
    ensures IsSuffix(Capped(h, cap), h)
    ensures |Capped(h, cap)| == if cap.Some? && 1 <= cap.value <= |h| then cap.value else |h|
  {
  }

  /** What pruning keeps is a suffix, no longer than a cap of at least one; without a TTL only the cap drops events. */
  lemma PruneIsSuffix(h: seq<Event>, cfg: Config, now: Time)
    ensures IsSuffix(Prune(h, cfg, now), h)
    ensures cfg.maxEvents.Some? && cfg.maxEvents.value >= 1 ==> |Prune(h, cfg, now)| <= cfg.maxEvents.value
    ensures cfg.ttl.None? ==>
              |Prune(h, cfg, now)| == if cfg.maxEvents.Some? && 1 <= cfg.maxEvents.value <= |h| then cfg.maxEvents.value
                                      else |h|
  {
    hide Capped, DropStale;
    var young := if cfg.ttl.Some? then DropStale(h, now - cfg.ttl.value) else h;
    CappedIsSuffix(young, cfg.maxEvents);
    if cfg.ttl.Some? {
      DropStaleIsSuffix(h, now - cfg.ttl.value);
      hide IsSuffix;
      SuffixTransitive(Prune(h, cfg, now), young, h);
    }
  }

  /** The first m events, and no more in a row, have stamps from before now minus the TTL; none without a TTL. */
  ghost predicate OutdatedInFront(h: seq<Event>, cfg: Config, now: Time, m: nat) {
    && m <= |h|
    && match cfg.ttl
       case None => m == 0
       case Some(ttl) =>
         && (forall i :: 0 <= i < m ==> h[i].ts.Some? && h[i].ts.value < now - ttl)
         && (m < |h| ==> h[m].ts == None || h[m].ts.value >= now - ttl)
  }

  /** Gone are the outdated events in front, and then as many more as a positive cap asks for. */
  ghost predicate PrunedTo(h: seq<Event>, kept: seq<Event>, cfg: Config, now: Time) {
    exists m: nat :: OutdatedInFront(h, cfg, now, m) && LatestOf(h, m, cfg.maxEvents, kept)
  }

  ghost predicate LatestOf(h: seq<Event>, m: nat, cap: Option<int>, kept: seq<Event>) {
    && m <= |h| && |kept| <= |h| && kept == h[|h| - |kept|..]
    && |kept| == if cap.Some? && 0 < cap.value < |h| - m then cap.value else |h| - m
  }

  lemma {:induction false} StaleInFront(h: seq<Event>, cutoff: Time) returns (m: nat)
    ensures m <= |h| && DropStale(h, cutoff) == h[m..]
    ensures forall i :: 0 <= i < m ==> h[i].ts.Some? && h[i].ts.value < cutoff
    ensures m < |h| ==> h[m].ts == None || h[m].ts.value >= cutoff
  {
    m := 0;
    if h != [] && Stale(h[0], cutoff) {
      m := StaleInFront(h[1..], cutoff);
      m := m + 1;
      assert forall i :: 0 < i < m ==> h[i] == h[1..][i - 1];
    }
  }

  lemma FrontGoes(h: seq<Event>, cfg: Config, now: Time) returns (m: nat)
    ensures m <= |h| && OutdatedInFront(h, cfg, now, m) && Prune(h, cfg, now) == Capped(h[m..], cfg.maxEvents)
  {
    hide DropStale, Capped;
    m := 0;
    if cfg.ttl.Some? { m := StaleInFront(h, now - cfg.ttl.value); }
    assert h[0..] == h;
  }

  lemma CappedIsLatest(h: seq<Event>, m: nat, cap: Option<int>)
    requires m <= |h|
    ensures LatestOf(h, m, cap, Capped(h[m..], cap))
  {
    var left, kept := h[m..], Capped(h[m..], cap);
    assert |kept| == if cap.Some? && 0 < cap.value < |h| - m then cap.value else |h| - m;
    assert kept == left[|left| - |kept|..];
  }

  lemma PruneKeepsTheLatest(h: seq<Event>, cfg: Config, now: Time)
    ensures PrunedTo(h, Prune(h, cfg, now), cfg, now)
  {
    hide Prune, Capped, OutdatedInFront, LatestOf;
    var m := FrontGoes(h, cfg, now);
    CappedIsLatest(h, m, cfg.maxEvents);
  }

  // ---------------------------------------------------------------- replay

  /** The events numbered above n, in order. */
  function Above(log: seq<Event>, n: int): seq<Event> {
    if log == [] then [] else (if SeqOf(log[0]) > n then [log[0]] else []) + Above(log[1..], n)
  }

  /** What subscribe replays of a history; a missing or negative since_seq asks for nothing. */
  function Replay(h: seq<Event>, since: Option<int>): seq<Event> {
    if since == None || since.value < 0 then [] else Above(h, since.value)
  }

  ghost predicate Numbered(log: seq<Event>) {
    forall i :: 0 <= i < |log| ==> log[i].num == Some(i + 1)
  }

  function Clamp(x: int, lo: int, hi: int): int {
    if x < lo then lo else if x > hi then hi else x
  }

  /** In a numbered log the events above n form a tail, also when only a suffix of the log is looked at. */
  lemma {:induction false} AboveIsTail(log: seq<Event>, from: nat, n: nat)
    requires Numbered(log) && from <= |log|
    ensures Above(log[from..], n) == log[Clamp(n, from, |log|)..]
    decreases |log| - from
  {
    if from < |log| {
      assert log[from..][1..] == log[from + 1..];
      AboveIsTail(log, from + 1, n);
    }
  }

  // ---------------------------------------------------------------- the bus

  /** What a subscription was asked for and found: histories for the statement of what it receives. */
  datatype Ticket = Ticket(run: RunId, since: Option<int>, mark: nat, pruned: nat)

  /**
   * `seqs` are the store's counters, `history` and `subscribers` the bus's dictionaries, `queues` the contents of the
   * queues. The rest are histories: `published` is each run's log since it was last dropped, `tickets` the
   * subscriptions, `taken` what their readers have already taken, and `heard` the log of a queue's run as far as it
   * went while the queue was subscribed.
   */
  datatype Bus = Bus(
    cfg: Config, seqs: map<RunId, nat>, history: map<RunId, seq<Event>>,
    subscribers: map<RunId, seq<QueueId>>, queues: map<QueueId, seq<Event>>,
    published: map<RunId, seq<Event>>, tickets: map<QueueId, Ticket>, taken: map<QueueId, seq<Event>>,
    heard: map<QueueId, seq<Event>>)

  function EmptyBus(cfg: Config): Bus {
    Bus(cfg, map[], map[], map[], map[], map[], map[], map[], map[])
  }

  function LastSeq(b: Bus, r: RunId): nat {
    if r in b.seqs then b.seqs[r] else 0
  }

  function Log(b: Bus, r: RunId): seq<Event> {
    if r in b.published then b.published[r] else []
  }

  function History(b: Bus, r: RunId): seq<Event> {
    if r in b.history then b.history[r] else []
  }

  function Subscribers(b: Bus, r: RunId): seq<QueueId> {
    if r in b.subscribers then b.subscribers[r] else []
  }

  function TakenFrom(b: Bus, q: QueueId): seq<Event> {
    if q in b.taken then b.taken[q] else []
  }

  function Push(queues: map<QueueId, seq<Event>>, to: seq<QueueId>, e: Event): map<QueueId, seq<Event>> {
    map q | q in queues :: if q in to then queues[q] + [e] else queues[q]
  }

  function TicketFor(b: Bus, r: RunId, since: Option<int>): Ticket {
    var n, kept := |Log(b, r)|, |History(b, r)|;
    Ticket(r, since, n, if kept <= n then n - kept else 0)
  }

  datatype Action =
    | Publish(r: RunId, e: Event, now: Time)
    | Subscribe(r: RunId, q: QueueId, since: Option<int>)
    | Unsubscribe(r: RunId, q: QueueId)
    | Take(q: QueueId)
    | DropRun(r: RunId)

  /** Emitters leave the number unset, a subscription makes a new queue, and a reader takes from a non-empty queue. */
  predicate Enabled(b: Bus, a: Action) {
    match a
    case Publish(_, e, _) => e.num == None
    case Subscribe(_, q, _) => q !in b.queues
    case Take(q) => q in b.queues && b.queues[q] != []
    case _ => true
  }

  function Next(b: Bus, a: Action): Bus
    requires Enabled(b, a)
  {
    match a
    case Publish(r, e, now) =>
      var n := LastSeq(b, r) + 1;
      var numbered := e.(num := Some(n));
      b.(seqs := b.seqs[r := n],
         history := b.history[r := Prune(History(b, r) + [numbered], b.cfg, now)],
         queues := Push(b.queues, Subscribers(b, r), numbered),
         heard := Push(b.heard, Subscribers(b, r), numbered),
         published := b.published[r := Log(b, r) + [numbered]])
    case Subscribe(r, q, since) =>
      b.(subscribers := b.subscribers[r := Subscribers(b, r) + [q]],
         queues := b.queues[q := Replay(History(b, r), since)],
         tickets := b.tickets[q := TicketFor(b, r, since)],
         taken := b.taken[q := []],
         heard := b.heard[q := Log(b, r)])
    case Unsubscribe(r, q) =>
      if q !in Subscribers(b, r) then b
      else
        var left := WithoutFirst(Subscribers(b, r), q);
        b.(subscribers := if left == [] then b.subscribers - {r} else b.subscribers[r := left])
    case Take(q) =>
      b.(queues := b.queues[q := b.queues[q][1..]], taken := b.taken[q := TakenFrom(b, q) + [b.queues[q][0]]])
    case DropRun(r) =>
      b.(seqs := b.seqs - {r}, history := b.history - {r}, subscribers := b.subscribers - {r},
         published := b.published - {r})
  }

  // ---------------------------------------------------------------- what always holds

  /** Where in the log a subscription's stream begins. */
  function CutOf(t: Ticket): nat {
    if t.since == None || t.since.value < 0 then t.mark
    else if t.pruned <= t.mark then Clamp(t.since.value, t.pruned, t.mark) else t.mark
  }

  /** A log of `log`, its counter and what is retained of it agree. */
  ghost predicate LogFits(cfg: Config, last: nat, log: seq<Event>, h: seq<Event>) {
    && last == |log|
    && Numbered(log)
    && IsSuffix(h, log)
    && (cfg.maxEvents.Some? && cfg.maxEvents.value >= 1 ==> |h| <= cfg.maxEvents.value)
    && (cfg.ttl.None? ==>
          |h| == if cfg.maxEvents.Some? && 1 <= cfg.maxEvents.value <= |log| then cfg.maxEvents.value else |log|)
  }

  ghost predicate LogOk(b: Bus, r: RunId) {
    LogFits(b.cfg, LastSeq(b, r), Log(b, r), History(b, r))
  }

  /** What the reader has taken and what waits for it are together the log from the cut on. */
  ghost predicate StreamFits(t: Ticket, taken: seq<Event>, waiting: seq<Event>, log: seq<Event>) {
    && t.pruned <= t.mark <= |log|
    && taken + waiting == log[CutOf(t)..]
  }

  ghost predicate QueueOk(b: Bus, q: QueueId) {
    && q in b.queues && q in b.tickets && q in b.taken && q in b.heard
    && Numbered(b.heard[q])
    && StreamFits(b.tickets[q], b.taken[q], b.queues[q], b.heard[q])
  }

  /** A subscribed queue has heard the whole log of its run. */
  ghost predicate StreamOk(b: Bus, r: RunId, q: QueueId) {
    && QueueOk(b, q)
    && b.tickets[q].run == r
    && b.heard[q] == Log(b, r)
  }

  ghost predicate BusOk(b: Bus) {
    && (forall r :: LogOk(b, r))
    && (forall r :: NoDups(Subscribers(b, r)))
    && (forall q :: q in b.queues ==> QueueOk(b, q))
    && (forall r, q :: q in Subscribers(b, r) ==> StreamOk(b, r, q))
  }

  lemma AppendFits(cfg: Config, last: nat, log: seq<Event>, h: seq<Event>, e: Event, now: Time)
    requires LogFits(cfg, last, log, h) && e.num == Some(last + 1)
    ensures LogFits(cfg, last + 1, log + [e], Prune(h + [e], cfg, now)) && Numbered(log + [e])
  {
    PruneIsSuffix(h + [e], cfg, now);
    hide Prune;
    assert IsSuffix(h + [e], log + [e]);
    SuffixTransitive(Prune(h + [e], cfg, now), h + [e], log + [e]);
  }

  lemma AppendFitsStream(t: Ticket, taken: seq<Event>, waiting: seq<Event>, log: seq<Event>, e: Event)
    requires StreamFits(t, taken, waiting, log)
    ensures StreamFits(t, taken, waiting + [e], log + [e])
  {
    assert taken + (waiting + [e]) == (taken + waiting) + [e];
    assert (log + [e])[CutOf(t)..] == log[CutOf(t)..] + [e];
  }

  lemma PublishKeepsQueue(b: Bus, r: RunId, e: Event, now: Time, q: QueueId)
    requires BusOk(b) && e.num == None && q in b.queues
    ensures QueueOk(Next(b, Publish(r, e, now)), q)
    ensures forall x :: q in Subscribers(b, x) ==> StreamOk(Next(b, Publish(r, e, now)), x, q)
  {
    hide StreamFits, Prune, NoDups, Numbered, LogFits;
    var t := Next(b, Publish(r, e, now));
    var numbered := e.(num := Some(LastSeq(b, r) + 1));
    assert QueueOk(b, q);
    if q in Subscribers(b, r) {
      assert StreamOk(b, r, q) && LogOk(b, r);
      AppendFits(b.cfg, LastSeq(b, r), Log(b, r), History(b, r), numbered, now);
      AppendFitsStream(b.tickets[q], b.taken[q], b.queues[q], Log(b, r), numbered);
      assert t.heard[q] == Log(b, r) + [numbered];
    }
    forall x | q in Subscribers(b, x) ensures StreamOk(t, x, q) {
      assert StreamOk(b, x, q);
    }
  }

  lemma PublishOk(b: Bus, r: RunId, e: Event, now: Time)
    requires BusOk(b) && e.num == None
    ensures BusOk(Next(b, Publish(r, e, now)))
  {
    hide LogFits, StreamOk, QueueOk, Prune, NoDups;
    var t := Next(b, Publish(r, e, now));
    var numbered := e.(num := Some(LastSeq(b, r) + 1));
    forall x ensures LogOk(t, x) && NoDups(Subscribers(t, x)) {
      assert LogOk(b, x) && NoDups(Subscribers(b, x));
      if x == r { AppendFits(b.cfg, LastSeq(b, r), Log(b, r), History(b, r), numbered, now); }
    }
    forall q | q in t.queues ensures QueueOk(t, q) {
      PublishKeepsQueue(b, r, e, now, q);
    }
    forall x, q | q in Subscribers(t, x) ensures StreamOk(t, x, q) {
      assert q in Subscribers(b, x);
      assert q in b.queues by { SubscribedIsOpen(b, x, q); }
      PublishKeepsQueue(b, r, e, now, q);
    }
  }

  lemma SubscribedIsOpen(b: Bus, r: RunId, q: QueueId)
    requires BusOk(b) && q in Subscribers(b, r)
    ensures q in b.queues
  {
    assert StreamOk(b, r, q);
  }

  lemma ReplayFits(cfg: Config, last: nat, log: seq<Event>, h: seq<Event>, t: Ticket)
    requires LogFits(cfg, last, log, h)
    requires t.mark == |log| && t.pruned == |log| - |h|
    ensures StreamFits(t, [], Replay(h, t.since), log) && Numbered(log)
  {
    if t.since.Some? && t.since.value >= 0 {
      AboveIsTail(log, t.pruned, t.since.value);
    }
  }

  lemma NewQueueIsNobodys(b: Bus, q: QueueId, r: RunId)
    requires BusOk(b) && q !in b.queues
    ensures q !in Subscribers(b, r)
  {
    assert q in Subscribers(b, r) ==> StreamOk(b, r, q);
  }

  lemma TicketFits(b: Bus, r: RunId, since: Option<int>)
    requires LogOk(b, r)
    ensures StreamFits(TicketFor(b, r, since), [], Replay(History(b, r), since), Log(b, r)) && Numbered(Log(b, r))
  {
    hide Replay, Numbered, StreamFits;
    ReplayFits(b.cfg, LastSeq(b, r), Log(b, r), History(b, r), TicketFor(b, r, since));
  }

  lemma SubscribeFits(b: Bus, r: RunId, q: QueueId, since: Option<int>)
    requires BusOk(b) && q !in b.queues
    ensures StreamOk(Next(b, Subscribe(r, q, since)), r, q)
  {
    assert LogOk(b, r);
    hide BusOk, LogOk, StreamFits, Replay, Numbered;
    TicketFits(b, r, since);
    var t := Next(b, Subscribe(r, q, since));
    assert t.tickets[q] == TicketFor(b, r, since) && t.tickets[q].run == r;
    assert t.queues[q] == Replay(History(b, r), since) && t.taken[q] == [];
    assert t.heard[q] == Log(b, r) == Log(t, r);
    hide TicketFor, Next;
  }

  lemma SubscribeOk(b: Bus, r: RunId, q: QueueId, since: Option<int>)
    requires BusOk(b) && q !in b.queues
    ensures BusOk(Next(b, Subscribe(r, q, since)))
  {
    hide StreamFits, Replay, Numbered, LogFits, NoDups, TicketFor;
    var t := Next(b, Subscribe(r, q, since));
    SubscribeFits(b, r, q, since);
    forall x ensures LogOk(t, x) && NoDups(Subscribers(t, x)) {
      assert LogOk(b, x) && NoDups(Subscribers(b, x));
      NewQueueIsNobodys(b, q, x);
      if x == r { NoDupsSnoc(Subscribers(b, r), q); }
    }
    forall p | p in t.queues ensures QueueOk(t, p) {
      if p != q { assert QueueOk(b, p); }
    }
    forall x, p | p in Subscribers(t, x) ensures StreamOk(t, x, p) {
      NewQueueIsNobodys(b, q, x);
      if p != q {
        assert p in Subscribers(b, x);
        assert StreamOk(b, x, p);
      }
    }
  }

  lemma {:induction false} WithoutFirstFacts(qs: seq<QueueId>, q: QueueId)
    requires NoDups(qs)
    ensures NoDups(WithoutFirst(qs, q))
    ensures forall p :: p in WithoutFirst(qs, q) <==> p in qs && p != q
  {
    if qs != [] {
      WithoutFirstFacts(qs[1..], q);
      assert qs[0] !in qs[1..];
      assert forall p :: p in qs <==> p == qs[0] || p in qs[1..];
    }
  }

  lemma UnsubscribeOk(b: Bus, r: RunId, q: QueueId)
    requires BusOk(b)
    ensures BusOk(Next(b, Unsubscribe(r, q)))
    ensures forall x :: Subscribers(Next(b, Unsubscribe(r, q)), x)
                    == if x == r then WithoutFirst(Subscribers(b, r), q) else Subscribers(b, x)
    ensures q !in Subscribers(Next(b, Unsubscribe(r, q)), r)
  {
    var t := Next(b, Unsubscribe(r, q));
    assert NoDups(Subscribers(b, r));
    WithoutFirstFacts(Subscribers(b, r), q);
    if q !in Subscribers(b, r) { WithoutAbsent(Subscribers(b, r), q); }
    forall x ensures Subscribers(t, x) == if x == r then WithoutFirst(Subscribers(b, r), q) else Subscribers(b, x) {
    }
    hide LogFits, StreamFits, Numbered, NoDups;
    forall x ensures LogOk(t, x) { assert LogOk(b, x); }
    forall p | p in t.queues ensures QueueOk(t, p) { assert QueueOk(b, p); }
    forall x, p | p in Subscribers(t, x) ensures StreamOk(t, x, p) {
      assert p in Subscribers(b, x);
      assert StreamOk(b, x, p);
    }
  }

  lemma {:induction false} WithoutAbsent(qs: seq<QueueId>, q: QueueId)
    requires q !in qs
    ensures WithoutFirst(qs, q) == qs
  {
    if qs != [] { WithoutAbsent(qs[1..], q); }
  }

  lemma TakeFitsStream(t: Ticket, taken: seq<Event>, waiting: seq<Event>, log: seq<Event>)
    requires StreamFits(t, taken, waiting, log) && waiting != []
    ensures StreamFits(t, taken + [waiting[0]], waiting[1..], log)
  {
    assert (taken + [waiting[0]]) + waiting[1..] == taken + waiting;
  }

  lemma TakeOk(b: Bus, q: QueueId)
    requires BusOk(b) && Enabled(b, Take(q))
    ensures BusOk(Next(b, Take(q)))
  {
    hide LogFits, StreamFits, NoDups, Numbered;
    var t := Next(b, Take(q));
    forall x ensures LogOk(t, x) && NoDups(Subscribers(t, x)) { assert LogOk(b, x) && NoDups(Subscribers(b, x)); }
    forall p | p in t.queues ensures QueueOk(t, p) {
      assert QueueOk(b, p);
      if p == q { TakeFitsStream(b.tickets[q], b.taken[q], b.queues[q], b.heard[q]); }
    }
    forall x, p | p in Subscribers(t, x) ensures StreamOk(t, x, p) {
      assert StreamOk(b, x, p);
    }
  }

  lemma EmptyFits(cfg: Config)
    ensures LogFits(cfg, 0, [], [])
  {
  }

  lemma DropOk(b: Bus, r: RunId)
    requires BusOk(b)
    ensures BusOk(Next(b, DropRun(r)))
  {
    hide LogFits, StreamFits, Numbered;
    var t := Next(b, DropRun(r));
    EmptyFits(b.cfg);
    forall p | p in t.queues ensures QueueOk(t, p) { assert QueueOk(b, p); }
    forall x ensures LogOk(t, x) && NoDups(Subscribers(t, x)) {
      assert LogOk(b, x) && NoDups(Subscribers(b, x));
    }
    forall x, p | p in Subscribers(t, x) ensures StreamOk(t, x, p) {
      assert StreamOk(b, x, p);
    }
  }

  lemma NextOk(b: Bus, a: Action)
    requires BusOk(b) && Enabled(b, a)
    ensures BusOk(Next(b, a))
  {
    hide BusOk;
    match a
    case Publish(r, e, now) => PublishOk(b, r, e, now);
    case Subscribe(r, q, since) => SubscribeOk(b, r, q, since);
    case Unsubscribe(r, q) => UnsubscribeOk(b, r, q);
    case Take(q) => TakeOk(b, q);
    case DropRun(r) => DropOk(b, r);
  }

  ghost predicate Legal(b: Bus, acts: seq<Action>)
    decreases |acts|
  {
    acts == [] || (Enabled(b, acts[0]) && Legal(Next(b, acts[0]), acts[1..]))
  }

  ghost function Exec(b: Bus, acts: seq<Action>): Bus
    requires Legal(b, acts)
    decreases |acts|
  {
    if acts == [] then b else Exec(Next(b, acts[0]), acts[1..])
  }

  lemma {:induction false} ExecOk(b: Bus, acts: seq<Action>)
    requires BusOk(b) && Legal(b, acts)
    ensures BusOk(Exec(b, acts))
    decreases |acts|
  {
    if acts != [] {
      NextOk(b, acts[0]);
      hide BusOk, Next;
      ExecOk(Next(b, acts[0]), acts[1..]);
    }
  }

  ghost predicate ReachableBy(cfg: Config, acts: seq<Action>, b: Bus) {
    Legal(EmptyBus(cfg), acts) && b == Exec(EmptyBus(cfg), acts)
  }

  lemma ReachableOk(cfg: Config, acts: seq<Action>, b: Bus)
    requires ReachableBy(cfg, acts, b)
    ensures BusOk(b)
  {
    ExecOk(EmptyBus(cfg), acts);
  }
}
