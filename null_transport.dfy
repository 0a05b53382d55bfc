/**
 * `DailyDesk\Monitor\Transports\NullTransport`: a transport that keeps the
 * entries it is given in memory and drops them on `flush`.
 */
module NullTransport {

  class NullTransport<E> {
    var queue: seq<E>

    constructor ()
      ensures queue == []
    {
      queue := [];
    }

    /** `addEntry($entry)`: appends, keeps every earlier entry, and returns itself for chaining. */
    method AddEntry(entry: E) returns (self: NullTransport<E>)
      modifies this
      ensures queue == old(queue) + [entry]
      ensures queue[..|old(queue)|] == old(queue)
      ensures self == this
    {
      queue := queue + [entry];
      self := this;
    }

    /** `flush()`: resets the queue, and returns itself for chaining. */
    method Flush() returns (self: NullTransport<E>)
      modifies this
      ensures queue == []
      ensures self == this
    {
      self := ResetQueue();
    }

    /** `resetQueue()`: empties the queue whatever it held (so a second call changes nothing), and returns itself. */
    method ResetQueue() returns (self: NullTransport<E>)
      modifies this
      ensures queue == []
      ensures self == this
    {
      queue := [];
      self := this;
    }

    /** `getQueue()`: the entries held, in the order they were added; changes nothing. */
    method GetQueue() returns (entries: seq<E>)
      ensures entries == queue
    {
      entries := queue;
    }
  }
}
