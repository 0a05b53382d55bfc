/**
 * `DailyDesk\Monitor\Handlers\TransportHandler`: hands a flushed queue to a
 * transport, entry by entry, then flushes the transport once; any fault is
 * rethrown as a `MonitorException` carrying the original message and code.
 */
module TransportHandler {
  import opened Wrappers
  import opened Php
  import opened Delivery

  /** The calls `handle` makes when nothing throws: every entry in queue order, then one flush. */
  function HandleCalls<E>(queue: seq<E>): (calls: seq<Call<E>>)
    ensures |calls| == |queue| + 1
    ensures forall i :: 0 <= i < |queue| ==> calls[i] == AddEntry(queue[i])
    ensures calls[|queue|] == Flush
  {
    Adds(queue) + [Flush]
  }

  /** Every queue entry is added exactly once and in order, and the transport is flushed exactly once. */
  lemma {:induction false} HandleCallsOnceInOrder<E>(queue: seq<E>)
    ensures Added(HandleCalls(queue)) == queue
    ensures Flushes(HandleCalls(queue)) == 1
  {
    AddedAppend(Adds(queue), [Flush]);
    AddedAdds(queue);
    assert Added([Call<E>.Flush]) == [] && Flushes([Call<E>.Flush]) == 1;
  }

  /** An empty queue makes no `addEntry` call and a single flush. */
  lemma {:induction false} EmptyQueueOnlyFlushes<E>()
    ensures HandleCalls<E>([]) == [Flush]
  {
  }

  /**
   * When the `addEntry` call for entry `k` is the first to throw, the entries
   * before it and entry `k` itself have been added, nothing after it is
   * added, and the transport is never flushed.
   */
  lemma {:induction false} FailedAddStopsBeforeFlush<E>(queue: seq<E>, faults: map<nat, Throwable>, from: nat, k: nat)
    requires k < |queue|
    requires forall j :: from <= j < from + k ==> j !in faults
    requires from + k in faults
    ensures Attempt(HandleCalls(queue), faults, from).0 == Adds(queue[..k + 1])
    ensures Added(Attempt(HandleCalls(queue), faults, from).0) == queue[..k + 1]
    ensures Flushes(Attempt(HandleCalls(queue), faults, from).0) == 0
  {
    var planned := HandleCalls(queue);
    AttemptStopsAt(planned, faults, from, k);
    assert planned[..k + 1] == Adds(queue[..k + 1]);
    AddedAdds(queue[..k + 1]);
  }

  class TransportHandler<E> {
    const transport: Transport<E>

    constructor (transport: Transport<E>)
      ensures this.transport == transport
    {
      this.transport := transport;
    }

    /**
     * `handle($queue)`: the calls the transport receives are those of
     * `HandleCalls(queue)` up to the first that throws; on success the queue
     * is returned unchanged, otherwise the fault is rethrown as a
     * `MonitorException` with the fault as previous exception.
     */
    method Handle(queue: seq<E>) returns (r: Result<seq<E>, Throwable>)
      modifies transport
      ensures
        var attempt := Attempt(HandleCalls(queue), transport.faults, |old(transport.calls)|);
        && transport.calls == old(transport.calls) + attempt.0
        && r == (if attempt.1.None? then Ok(queue) else Err(Rethrown(attempt.1.value, true)))
    {
      ghost var from := |transport.calls|;
      ghost var planned := HandleCalls(queue);
      var i := 0;
      while i < |queue|
        invariant 0 <= i <= |queue|
        invariant transport.calls == old(transport.calls) + planned[..i]
        invariant forall j :: from <= j < from + i ==> j !in transport.faults
      {
        var fault := transport.AddEntry(queue[i]);
        if fault.Some? {
          AttemptStopsAt(planned, transport.faults, from, i);
          assert planned[..i] + [planned[i]] == planned[..i + 1];
          return Err(Rethrown(fault.value, true));
        }
        assert planned[..i] + [planned[i]] == planned[..i + 1];
        i := i + 1;
      }
      var fault := transport.Flush();
      assert planned[..|queue|] + [planned[|queue|]] == planned;
      if fault.Some? {
        AttemptStopsAt(planned, transport.faults, from, |queue|);
        return Err(Rethrown(fault.value, true));
      }
      AttemptCompletes(planned, transport.faults, from);
      return Ok(queue);
    }
  }
}
