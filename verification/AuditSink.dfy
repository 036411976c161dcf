/** The audit sink as an object, its worker's turns run without interruption; Audit has every interleaving. */
module AuditSinks {
  import opened Basics
  import opened Audit

  lemma NothingQueued(dumps: Dumps, text: string, queue: seq<Record>)
    requires queue == []
    ensures text + SyncText(dumps, queue) == text
  {
  }

  class AuditSink {
    const dumps: Dumps
    const asyncMode: bool
    var buffer: Option<seq<Record>>
    var queue: seq<Record>
    var text: string
    var closed: bool
    var stop: bool

    constructor (dumps: Dumps, asyncMode: bool, keepInMemory: bool, text: string)
      ensures this.dumps == dumps && this.asyncMode == asyncMode && this.text == text
      ensures queue == [] && !closed && !stop && buffer == if keepInMemory then Some([]) else None
    {
      this.dumps, this.asyncMode, this.text := dumps, asyncMode, text;
      buffer := if keepInMemory then Some([]) else None;
      queue, closed, stop := [], false, false;
    }

    /** What the stream will hold once everything queued is written. */
    ghost function Promised(): string
      reads this
    {
      text + SyncText(dumps, queue)
    }

    /** Whichever the mode, an open sink comes to owe the stream exactly this record more; a closed one nothing. */
    method Write(r: Record)
      requires !asyncMode ==> queue == []
      modifies this`buffer, this`queue, this`text
      ensures buffer == if old(buffer).Some? then Some(old(buffer).value + [r]) else None
      ensures Promised() == if closed then old(Promised()) else old(Promised()) + SyncText(dumps, [r])
      ensures Promised() == if closed then old(Promised()) else old(Promised()) + dumps(r) + "\n"
      ensures if asyncMode then text == old(text) else queue == []
    {
      hide SyncText;
      SyncTextIsLines(dumps, [], r);
      assert [] + [r] == [r];
      assert old(Promised()) + ("" + dumps(r) + "\n") == old(Promised()) + dumps(r) + "\n";
      if buffer.Some? {
        buffer := Some(buffer.value + [r]);
      }
      if closed {
        return;
      }
      if asyncMode {
        SyncTextConcat(dumps, queue, [r]);
        queue := queue + [r];
        assert text + (SyncText(dumps, old(queue)) + SyncText(dumps, [r])) == old(Promised()) + SyncText(dumps, [r]);
      } else {
        WriteRecord(r);
        NothingQueued(dumps, text, queue);
        NothingQueued(dumps, old(text), queue);
      }
    }

    method WriteRecord(r: Record)
      modifies this`text
      ensures text == if closed then old(text) else old(text) + SyncText(dumps, [r])
    {
      if closed {
        return;
      }
      text := text + (dumps(r) + "\n");
      assert dumps(r) + "\n" + [] == dumps(r) + "\n";
    }

    /** One write for the whole batch, the payload joined record by record. */
    method WriteBatch(records: seq<Record>)
      requires records != []
      modifies this`text
      ensures text == if closed then old(text) else old(text) + SyncText(dumps, records)
    {
      var payload := dumps(records[0]);
      for i := 1 to |records|
        invariant text == old(text) && payload + "\n" == SyncText(dumps, records[..i])
      {
        assert records[..i + 1] == records[..i] + [records[i]];
        SyncTextConcat(dumps, records[..i], [records[i]]);
        assert SyncText(dumps, [records[i]]) == dumps(records[i]) + "\n";
        payload := payload + "\n" + dumps(records[i]);
        assert payload + "\n" == SyncText(dumps, records[..i]) + (dumps(records[i]) + "\n");
      }
      assert records[..|records|] == records;
      if closed {
        return;
      }
      text := text + (payload + "\n");
    }

    /** One turn of the worker: everything queued goes out in one write, in order; an empty queue writes nothing. */
    method WorkerTurn()
      requires !closed
      modifies this`queue, this`text
      ensures queue == [] && text == old(Promised())
    {
      var pending: seq<Record> := [];
      if queue != [] {
        pending, queue := pending + [queue[0]], queue[1..];
        while queue != []
          invariant pending != [] && pending + queue == old(queue) && text == old(text)
          decreases |queue|
        {
          pending, queue := pending + [queue[0]], queue[1..];
        }
      }
      if pending != [] {
        assert pending == old(queue);
        WriteBatch(pending);
      }
    }

    /** Closing an open sink writes out all that was queued, and lets go of the stream. */
    method Close()
      requires !closed
      requires !asyncMode ==> queue == []
      modifies this`queue, this`text, this`stop, this`closed
      ensures closed && queue == [] && text == old(Promised())
    {
      if asyncMode {
        stop := true;
        while !stop || queue != []
          invariant stop && !closed && Promised() == old(Promised())
          decreases |queue|
        {
          WorkerTurn();
        }
      }
      closed := true;
    }
  }
}
