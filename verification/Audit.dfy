/** The audit sink's asynchronous writer as a step system, against the text the synchronous writer produces. */
module Audit {
  import opened Basics

  datatype Record = Record(kind: string, ts: Time, data: string)

  /** json.dumps with the sink's fallback encoder. */
  type Dumps = Record -> string

  // ---------------------------------------------------------------- the two ways to write

  /** _write_record for each record in turn. */
  function SyncText(dumps: Dumps, records: seq<Record>): string {
    if records == [] then [] else dumps(records[0]) + "\n" + SyncText(dumps, records[1..])
  }

  function Joined(dumps: Dumps, records: seq<Record>): string {
    if records == [] then []
    else if |records| == 1 then dumps(records[0])
    else dumps(records[0]) + "\n" + Joined(dumps, records[1..])
  }

  /** _write_batch's payload. */
  function BatchText(dumps: Dumps, records: seq<Record>): string {
    Joined(dumps, records) + "\n"
  }

  /** A batch is the same text as its records one by one, unless it is empty: then it would be a stray newline. */
  lemma {:induction false} BatchIsItsRecords(dumps: Dumps, records: seq<Record>)
    ensures BatchText(dumps, records) == SyncText(dumps, records) <==> records != []
  {
    if |records| == 1 {
      assert records[1..] == [];
      assert dumps(records[0]) + "\n" + [] == dumps(records[0]) + "\n";
    } else if |records| > 1 {
      BatchIsItsRecords(dumps, records[1..]);
      assert BatchText(dumps, records) == dumps(records[0]) + "\n" + BatchText(dumps, records[1..]);
    }
  }

  lemma {:induction false} SyncTextConcat(dumps: Dumps, a: seq<Record>, b: seq<Record>)
    ensures SyncText(dumps, a + b) == SyncText(dumps, a) + SyncText(dumps, b)
  {
    if a == [] {
      assert a + b == b;
    } else {
      assert (a + b)[1..] == a[1..] + b;
      SyncTextConcat(dumps, a[1..], b);
      assert SyncText(dumps, a + b) == dumps(a[0]) + "\n" + (SyncText(dumps, a[1..]) + SyncText(dumps, b));
    }
  }

  /** One line for each record. */
  lemma SyncTextIsLines(dumps: Dumps, records: seq<Record>, r: Record)
    ensures SyncText(dumps, []) == "" && SyncText(dumps, records + [r]) == SyncText(dumps, records) + dumps(r) + "\n"
  {
    SyncTextConcat(dumps, records, [r]);
    assert [r][1..] == [];
    assert dumps(r) + "\n" + [] == dumps(r) + "\n";
    assert SyncText(dumps, records) + (dumps(r) + "\n") == SyncText(dumps, records) + dumps(r) + "\n";
  }

  // ---------------------------------------------------------------- the step system

  /** Where the worker thread stands in its loop. */
  datatype Phase = Top | Waiting | Draining | Flush | Exited

  /**
   * `text` is what the stream holds and `closed` whether the sink has let go of it; `arriving` are records of writers
   * that found the stream open and have not put theirs yet. `enqueued` and `written` are histories.
   */
  datatype Sink = Sink(
    queue: seq<Record>, pending: seq<Record>, phase: Phase, stop: bool, closed: bool, text: string,
    arriving: seq<Record>, enqueued: seq<Record>, written: seq<Record>)

  function Opened(text: string): Sink {
    Sink([], [], Top, false, false, text, [], [], [])
  }

  datatype Action =
    | BeginWrite(r: Record)
    | PutRecord(i: nat)
    | CheckLoop
    | GetFirst
    | TimeOut
    | GetMore
    | WriteOut
    | SetStop
    | LetGo

  /** A get times out only on an empty queue; close lets go of the stream only after joining the worker. */
  predicate Enabled(s: Sink, a: Action) {
    match a
    case PutRecord(i) => i < |s.arriving|
    case CheckLoop => s.phase == Top
    case GetFirst => s.phase == Waiting && s.queue != []
    case TimeOut => s.phase == Waiting && s.queue == []
    case GetMore => s.phase == Draining
    case WriteOut => s.phase == Flush
    case LetGo => s.stop && s.phase == Exited
    case _ => true
  }

  function Next(dumps: Dumps, s: Sink, a: Action): Sink
    requires Enabled(s, a)
  {
    match a
    case BeginWrite(r) => if s.closed then s else s.(arriving := s.arriving + [r])
    case PutRecord(i) =>
      s.(arriving := s.arriving[..i] + s.arriving[i + 1..],
         queue := s.queue + [s.arriving[i]], enqueued := s.enqueued + [s.arriving[i]])
    case CheckLoop => s.(phase := if !s.stop || s.queue != [] then Waiting else Exited)
    case GetFirst => s.(queue := s.queue[1..], pending := s.pending + [s.queue[0]], phase := Draining)
    case TimeOut => s.(phase := Flush)
    case GetMore =>
      if s.queue == [] then s.(phase := Flush)
      else s.(queue := s.queue[1..], pending := s.pending + [s.queue[0]])
    case WriteOut =>
      if s.pending == [] then s.(phase := Top)
      else if s.closed then s.(phase := Top, pending := [])
      else s.(phase := Top, pending := [], written := s.written + s.pending,
              text := s.text + BatchText(dumps, s.pending))
    case SetStop => s.(stop := true)
    case LetGo => s.(closed := true)
  }

  // ---------------------------------------------------------------- what always holds

  ghost predicate Inv(dumps: Dumps, start: string, s: Sink) {
    && s.written + s.pending + s.queue == s.enqueued
    && s.text == start + SyncText(dumps, s.written)
    && (s.phase.Top? || s.phase.Waiting? || s.phase.Exited? ==> s.pending == [])
    && (s.phase.Exited? ==> s.stop)
    && (s.closed ==> s.phase.Exited?)
  }

  lemma WriteOutKeepsInv(dumps: Dumps, start: string, s: Sink)
    requires Inv(dumps, start, s) && Enabled(s, WriteOut)
    ensures Inv(dumps, start, Next(dumps, s, WriteOut))
  {
    if s.pending != [] {
      BatchIsItsRecords(dumps, s.pending);
      SyncTextConcat(dumps, s.written, s.pending);
      assert start + (SyncText(dumps, s.written) + SyncText(dumps, s.pending))
          == s.text + BatchText(dumps, s.pending);
      assert s.written + s.pending + s.queue == (s.written + s.pending) + [] + s.queue;
    }
  }

  lemma HeadMoves(w: seq<Record>, p: seq<Record>, q: seq<Record>)
    requires q != []
    ensures w + (p + [q[0]]) + q[1..] == w + p + q
  {
    assert q == [q[0]] + q[1..];
  }

  lemma TailGrows(w: seq<Record>, p: seq<Record>, q: seq<Record>, r: Record)
    ensures w + p + (q + [r]) == (w + p + q) + [r]
  {
  }

  lemma NextKeepsInv(dumps: Dumps, start: string, s: Sink, a: Action)
    requires Inv(dumps, start, s) && Enabled(s, a)
    ensures Inv(dumps, start, Next(dumps, s, a))
  {
    if a.WriteOut? {
      WriteOutKeepsInv(dumps, start, s);
    } else {
      OthersKeepInv(dumps, start, s, a);
    }
  }

  lemma OthersKeepInv(dumps: Dumps, start: string, s: Sink, a: Action)
    requires Inv(dumps, start, s) && Enabled(s, a) && !a.WriteOut?
    ensures Inv(dumps, start, Next(dumps, s, a))
  {
    hide SyncText, BatchText;
    if a.PutRecord? {
      TailGrows(s.written, s.pending, s.queue, s.arriving[a.i]);
    } else if s.queue != [] {
      HeadMoves(s.written, s.pending, s.queue);
    }
  }

  ghost predicate Legal(dumps: Dumps, s: Sink, acts: seq<Action>)
    decreases |acts|
  {
    acts == [] || (Enabled(s, acts[0]) && Legal(dumps, Next(dumps, s, acts[0]), acts[1..]))
  }

  ghost function Exec(dumps: Dumps, s: Sink, acts: seq<Action>): Sink
    requires Legal(dumps, s, acts)
    decreases |acts|
  {
    if acts == [] then s else Exec(dumps, Next(dumps, s, acts[0]), acts[1..])
  }

  lemma {:induction false} ExecKeepsInv(dumps: Dumps, start: string, s: Sink, acts: seq<Action>)
    requires Inv(dumps, start, s) && Legal(dumps, s, acts)
    ensures Inv(dumps, start, Exec(dumps, s, acts))
    decreases |acts|
  {
    hide Inv, Next, Enabled;
    if acts != [] {
      NextKeepsInv(dumps, start, s, acts[0]);
      ExecKeepsInv(dumps, start, Next(dumps, s, acts[0]), acts[1..]);
    }
  }

  ghost predicate ReachableBy(dumps: Dumps, start: string, acts: seq<Action>, s: Sink) {
    Legal(dumps, Opened(start), acts) && s == Exec(dumps, Opened(start), acts)
  }

  lemma ReachableInv(dumps: Dumps, start: string, acts: seq<Action>, s: Sink)
    requires ReachableBy(dumps, start, acts, s)
    ensures Inv(dumps, start, s)
  {
    ExecKeepsInv(dumps, start, Opened(start), acts);
  }

  /** At every step nothing enqueued is lost, repeated or reordered, and the stream holds whole records only. */
  lemma NothingLost(dumps: Dumps, start: string, acts: seq<Action>, s: Sink)
    requires ReachableBy(dumps, start, acts, s)
    ensures s.written + s.pending + s.queue == s.enqueued
    ensures s.text == start + SyncText(dumps, s.written)
    ensures s.text + SyncText(dumps, s.pending + s.queue) == start + SyncText(dumps, s.enqueued)
  {
    hide SyncText, Exec, Legal;
    ReachableInv(dumps, start, acts, s);
    SyncTextConcat(dumps, s.written, s.pending + s.queue);
    assert s.written + (s.pending + s.queue) == s.enqueued;
  }

  lemma {:induction false} SyncTextGrows(dumps: Dumps, records: seq<Record>)
    ensures |SyncText(dumps, records)| >= |records|
  {
    if records != [] { SyncTextGrows(dumps, records[1..]); }
  }

  lemma NoRecordsNoText(dumps: Dumps)
    ensures SyncText(dumps, []) == ""
  {
  }

  lemma ClosedText(dumps: Dumps, start: string, s: Sink)
    requires Inv(dumps, start, s) && s.closed
    ensures s.text == start + SyncText(dumps, s.enqueued) <==> s.queue == []
  {
    hide SyncText;
    SyncTextConcat(dumps, s.written, s.queue);
    SyncTextGrows(dumps, s.queue);
    NoRecordsNoText(dumps);
    assert s.written + [] + s.queue == s.written + s.queue;
    assert |s.text| == |start| + |SyncText(dumps, s.written)|;
  }

  /** Once closed, the stream is what the synchronous writer makes of every record enqueued iff none is left queued. */
  lemma ClosedMatchesSync(dumps: Dumps, start: string, acts: seq<Action>, s: Sink)
    requires ReachableBy(dumps, start, acts, s) && s.closed
    ensures s.text == start + SyncText(dumps, s.enqueued) <==> s.queue == []
  {
    hide SyncText, Exec, Legal;
    ReachableInv(dumps, start, acts, s);
    ClosedText(dumps, start, s);
  }

  // ---------------------------------------------------------------- which writes are lost

  /** Somewhere in the actions a record is put after the worker has exited. */
  ghost predicate LatePut(dumps: Dumps, s: Sink, acts: seq<Action>)
    requires Legal(dumps, s, acts)
    decreases |acts|
  {
    acts != [] && ((acts[0].PutRecord? && s.phase.Exited?) || LatePut(dumps, Next(dumps, s, acts[0]), acts[1..]))
  }

  lemma NextAfterExit(dumps: Dumps, s: Sink, a: Action)
    requires Enabled(s, a)
    ensures var t := Next(dumps, s, a);
            && (s.phase.Exited? ==> t.phase.Exited? && (t.queue == [] <==> s.queue == [] && !a.PutRecord?))
            && (!s.phase.Exited? && t.phase.Exited? ==> t.queue == [])
  {
  }

  /** The worker leaves an empty queue behind, which then only late puts can fill. */
  lemma {:induction false} QueueAfterExit(dumps: Dumps, s: Sink, acts: seq<Action>)
    requires Legal(dumps, s, acts) && (s.phase.Exited? ==> s.queue == [])
    ensures s.phase.Exited? ==> Exec(dumps, s, acts).phase.Exited?
    ensures Exec(dumps, s, acts).phase.Exited? ==>
              (Exec(dumps, s, acts).queue == [] <==> !LatePut(dumps, s, acts))
    decreases |acts|
  {
    hide Next, Enabled;
    if acts != [] {
      var t := Next(dumps, s, acts[0]);
      NextAfterExit(dumps, s, acts[0]);
      if t.phase.Exited? && t.queue != [] {
        StaysFilled(dumps, t, acts[1..]);
      } else {
        QueueAfterExit(dumps, t, acts[1..]);
      }
    }
  }

  lemma {:induction false} StaysFilled(dumps: Dumps, s: Sink, acts: seq<Action>)
    requires Legal(dumps, s, acts) && s.phase.Exited? && s.queue != []
    ensures Exec(dumps, s, acts).phase.Exited? && Exec(dumps, s, acts).queue != []
    decreases |acts|
  {
    hide Next, Enabled;
    if acts != [] {
      NextAfterExit(dumps, s, acts[0]);
      StaysFilled(dumps, Next(dumps, s, acts[0]), acts[1..]);
    }
  }

  /**
   * From any moment at which the worker has not exited: once closed, the stream is the synchronous text of all
   * records enqueued if and only if none was put after the worker's exit.
   */
  lemma ClosedMatchesSyncUnlessLate(
    dumps: Dumps, start: string, acts: seq<Action>, s: Sink, rest: seq<Action>, t: Sink)
    requires ReachableBy(dumps, start, acts, s) && !s.phase.Exited?
    requires Legal(dumps, s, rest) && t == Exec(dumps, s, rest) && t.closed
    ensures t.text == start + SyncText(dumps, t.enqueued) <==> !LatePut(dumps, s, rest)
  {
    hide SyncText, Exec, Legal, LatePut;
    ReachableInv(dumps, start, acts, s);
    QueueAfterExit(dumps, s, rest);
    ExecKeepsInv(dumps, start, s, rest);
    ClosedText(dumps, start, t);
  }

  predicate Quiet(acts: seq<Action>) {
    forall i :: 0 <= i < |acts| ==> !acts[i].BeginWrite? && !acts[i].PutRecord?
  }

  lemma {:induction false} QuietEnqueuesNothing(dumps: Dumps, s: Sink, acts: seq<Action>)
    requires Legal(dumps, s, acts) && Quiet(acts)
    ensures Exec(dumps, s, acts).enqueued == s.enqueued && !LatePut(dumps, s, acts)
    decreases |acts|
  {
    if acts != [] {
      var t := Next(dumps, s, acts[0]);
      assert t.enqueued == s.enqueued;
      hide Next, Enabled;
      QuietEnqueuesNothing(dumps, t, acts[1..]);
    }
  }

  /** In particular if no one writes from some moment before the worker's exit on. */
  lemma QuietCloseMatchesSync(dumps: Dumps, start: string, acts: seq<Action>, s: Sink, rest: seq<Action>, t: Sink)
    requires ReachableBy(dumps, start, acts, s) && !s.phase.Exited?
    requires Legal(dumps, s, rest) && Quiet(rest) && t == Exec(dumps, s, rest) && t.closed
    ensures t.enqueued == s.enqueued && t.text == start + SyncText(dumps, s.enqueued)
  {
    QuietEnqueuesNothing(dumps, s, rest);
    ClosedMatchesSyncUnlessLate(dumps, start, acts, s, rest, t);
  }

  /** A writer that found the stream open before close, and puts its record after the worker left, is not written. */
  lemma LateRecordIsNotWritten(dumps: Dumps, start: string, r: Record)
    ensures exists acts, s :: ReachableBy(dumps, start, acts, s) && s.closed && s.queue == [r]
                              && s.text == start && s.enqueued == [r]
  {
    var acts := [BeginWrite(r), SetStop, CheckLoop, PutRecord(0), LetGo];
    var s0 := Opened(start);
    var s1 := Next(dumps, s0, acts[0]);
    var s2 := Next(dumps, s1, acts[1]);
    var s3 := Next(dumps, s2, acts[2]);
    var s4 := Next(dumps, s3, acts[3]);
    var s5 := Next(dumps, s4, acts[4]);
    assert acts[1..][1..] == acts[2..] && acts[2..][1..] == acts[3..] && acts[3..][1..] == acts[4..];
    assert acts[4..][1..] == [];
    assert Legal(dumps, s5, []) && Legal(dumps, s4, acts[4..]) && Legal(dumps, s3, acts[3..]);
    assert Legal(dumps, s2, acts[2..]) && Legal(dumps, s1, acts[1..]);
    assert s3.arriving == [r];
    assert Exec(dumps, s4, acts[4..]) == s5;
    assert Exec(dumps, s3, acts[3..]) == s5;
    assert Exec(dumps, s2, acts[2..]) == s5;
    assert Exec(dumps, s1, acts[1..]) == s5;
    assert ReachableBy(dumps, start, acts, s5);
  }

  // ---------------------------------------------------------------- close returns

  predicate WorkerStep(a: Action) {
    a.CheckLoop? || a.GetFirst? || a.TimeOut? || a.GetMore? || a.WriteOut?
  }

  function WorkLeft(s: Sink): nat {
    4 * |s.queue|
    + match s.phase
      case Top => 1
      case Waiting => if s.queue == [] then 3 else 0
      case Draining => 3
      case Flush => 2
      case Exited => 0
  }

  /** With the stop flag set the worker always has a step until it exits, and each step leaves less to do. */
  lemma WorkerExits(dumps: Dumps, s: Sink)
    requires s.stop
    ensures s.phase.Exited? <==> (forall a :: WorkerStep(a) ==> !Enabled(s, a))
    ensures forall a :: WorkerStep(a) && Enabled(s, a) ==> WorkLeft(Next(dumps, s, a)) < WorkLeft(s)
  {
    match s.phase {
      case Top => { assert WorkerStep(CheckLoop) && Enabled(s, CheckLoop); }
      case Waiting => {
        assert WorkerStep(TimeOut) && WorkerStep(GetFirst);
        assert Enabled(s, if s.queue == [] then TimeOut else GetFirst);
      }
      case Draining => { assert WorkerStep(GetMore) && Enabled(s, GetMore); }
      case Flush => { assert WorkerStep(WriteOut) && Enabled(s, WriteOut); }
      case Exited => {}
    }
  }

  // ---------------------------------------------------------------- after closing

  predicate Shut(s: Sink) {
    s.closed && s.phase.Exited? && s.arriving == []
  }

  lemma {:induction false} ShutStays(dumps: Dumps, s: Sink, acts: seq<Action>)
    requires Shut(s) && Legal(dumps, s, acts)
    ensures Shut(Exec(dumps, s, acts)) && Exec(dumps, s, acts).queue == s.queue
    ensures Exec(dumps, s, acts).enqueued == s.enqueued && Exec(dumps, s, acts).text == s.text
    decreases |acts|
  {
    if acts != [] { ShutStays(dumps, Next(dumps, s, acts[0]), acts[1..]); }
  }

  /** A sink that is closed, with no write under way, takes no record any more and its stream stays as it is. */
  lemma ClosedSinkIsFinal(
    dumps: Dumps, start: string, acts: seq<Action>, s: Sink, rest: seq<Action>, t: Sink)
    requires ReachableBy(dumps, start, acts, s) && s.closed && s.arriving == []
    requires Legal(dumps, s, rest) && t == Exec(dumps, s, rest)
    ensures t.text == s.text && t.enqueued == s.enqueued && t.queue == s.queue
  {
    hide SyncText, Exec, Legal;
    ReachableInv(dumps, start, acts, s);
    ShutStays(dumps, s, rest);
  }
}
