/**
 * `Monitor\Handlers\InspectorHandler`: sends one finished transaction to a
 * transport. The transaction goes first and is flushed on its own; then
 * every segment is added, each immediately followed by its error when it
 * has one, and the transport is flushed again. Faults are not caught.
 */
module InspectorHandler {
  import opened Wrappers
  import opened Php
  import opened Delivery

  /** `Monitor\Models\Error`: its contents are irrelevant to the handler. */
  datatype Error = Error(message: string)

  /** `Monitor\Models\Segment`, with what `getError()` returns. */
  datatype Segment = Segment(hash: string, error: Option<Error>)

  /** `Monitor\Models\Transaction`, with what `getSegments()` returns. */
  datatype Transaction = Transaction(hash: string, segments: seq<Segment>)

  /** What the handler puts on the transport. */
  datatype Entry = TransactionEntry(transaction: Transaction) | SegmentEntry(segment: Segment) | ErrorEntry(error: Error)

  /** The calls for one segment: the segment, then its error if it has one. */
  function SegmentCalls(s: Segment): seq<Call<Entry>> {
    [AddEntry(SegmentEntry(s))] + (if s.error.Some? then [AddEntry(ErrorEntry(s.error.value))] else [])
  }

  /** The calls for a list of segments, in order. */
  function BatchCalls(segments: seq<Segment>): seq<Call<Entry>> {
    if segments == [] then [] else SegmentCalls(segments[0]) + BatchCalls(segments[1..])
  }

  /** The calls `handle` makes when nothing throws. */
  function HandleCalls(t: Transaction): seq<Call<Entry>> {
    HandleHead(t) + BatchCalls(t.segments) + [Flush]
  }

  /** The first two calls of `handle`: the transaction, then a flush. */
  function HandleHead(t: Transaction): seq<Call<Entry>> {
    [AddEntry(TransactionEntry(t)), Flush]
  }

  /** The number of segments that carry an error. */
  function ErrorCount(segments: seq<Segment>): nat {
    if segments == [] then 0 else (if segments[0].error.Some? then 1 else 0) + ErrorCount(segments[1..])
  }

  /** The segments among some sent entries, in order. */
  function SegmentsOf(entries: seq<Entry>): seq<Segment> {
    if entries == [] then []
    else (if entries[0].SegmentEntry? then [entries[0].segment] else []) + SegmentsOf(entries[1..])
  }

  lemma {:induction false} BatchCallsAppend(a: seq<Segment>, b: seq<Segment>)
    ensures BatchCalls(a + b) == BatchCalls(a) + BatchCalls(b)
    ensures ErrorCount(a + b) == ErrorCount(a) + ErrorCount(b)
  {
    if a == [] {
      assert a + b == b;
    } else {
      assert (a + b)[0] == a[0] && (a + b)[1..] == a[1..] + b;
      BatchCallsAppend(a[1..], b);
    }
  }

  /** The second batch holds one entry per segment plus one per error: N + (segments with an error). */
  lemma {:induction false} BatchSize(segments: seq<Segment>)
    ensures |BatchCalls(segments)| == |segments| + ErrorCount(segments)
  {
    if segments != [] {
      BatchSize(segments[1..]);
    }
  }

  /** The second batch adds entries only and never flushes. */
  lemma {:induction false} BatchOnlyAdds(segments: seq<Segment>)
    ensures Flushes(BatchCalls(segments)) == 0
    ensures forall i :: 0 <= i < |BatchCalls(segments)| ==> BatchCalls(segments)[i].AddEntry?
  {
    if segments != [] {
      BatchOnlyAdds(segments[1..]);
      AddedAppend(SegmentCalls(segments[0]), BatchCalls(segments[1..]));
    }
  }

  /** Segments are sent in `getSegments()` order. */
  lemma {:induction false} BatchKeepsSegmentOrder(segments: seq<Segment>)
    ensures SegmentsOf(Added(BatchCalls(segments))) == segments
  {
    if segments != [] {
      var s := segments[0];
      AddedAppend(SegmentCalls(s), BatchCalls(segments[1..]));
      SegmentsOfAppend(Added(SegmentCalls(s)), Added(BatchCalls(segments[1..])));
      BatchKeepsSegmentOrder(segments[1..]);
      if s.error.Some? {
        assert Added(SegmentCalls(s)) == [SegmentEntry(s), ErrorEntry(s.error.value)];
        assert SegmentsOf([SegmentEntry(s), ErrorEntry(s.error.value)]) == [s];
      } else {
        assert Added(SegmentCalls(s)) == [SegmentEntry(s)];
      }
    }
  }

  lemma {:induction false} SegmentsOfAppend(a: seq<Entry>, b: seq<Entry>)
    ensures SegmentsOf(a + b) == SegmentsOf(a) + SegmentsOf(b)
  {
    if a == [] {
      assert a + b == b;
    } else {
      assert (a + b)[0] == a[0] && (a + b)[1..] == a[1..] + b;
      SegmentsOfAppend(a[1..], b);
    }
  }

  /** Splitting the second batch at segment `i`. */
  lemma {:induction false} BatchSplit(segments: seq<Segment>, i: nat)
    requires i < |segments|
    ensures BatchCalls(segments[..i + 1]) == BatchCalls(segments[..i]) + SegmentCalls(segments[i])
    ensures BatchCalls(segments) == BatchCalls(segments[..i + 1]) + BatchCalls(segments[i + 1..])
  {
    BatchCallsAppend(segments[..i], [segments[i]]);
    BatchCallsAppend(segments[..i + 1], segments[i + 1..]);
    assert segments[..i] + [segments[i]] == segments[..i + 1];
    assert segments[..i + 1] + segments[i + 1..] == segments;
    assert BatchCalls([segments[i]]) == SegmentCalls(segments[i]);
  }

  /** Where segment `i` starts in the second batch: after each earlier segment and each earlier error. */
  function Offset(segments: seq<Segment>, i: nat): nat
    requires i <= |segments|
  {
    i + ErrorCount(segments[..i])
  }

  /**
   * Segment `i` sits at `Offset(segments, i)`; its error, when it has one,
   * immediately follows it; and the next segment comes right after whatever
   * segment `i` contributed (one entry without an error, two with one).
   */
  lemma {:induction false} SegmentPosition(segments: seq<Segment>, i: nat)
    requires i < |segments|
    ensures Offset(segments, i) < |BatchCalls(segments)|
    ensures BatchCalls(segments)[Offset(segments, i)] == AddEntry(SegmentEntry(segments[i]))
    ensures segments[i].error.Some? ==>
      Offset(segments, i) + 1 < |BatchCalls(segments)| &&
      BatchCalls(segments)[Offset(segments, i) + 1] == AddEntry(ErrorEntry(segments[i].error.value))
    ensures Offset(segments, i + 1) == Offset(segments, i) + (if segments[i].error.Some? then 2 else 1)
  {
    var before, rest := segments[..i], segments[i..];
    assert segments == before + rest;
    BatchCallsAppend(before, rest);
    BatchSize(before);
    assert rest[0] == segments[i];
    assert BatchCalls(rest) == SegmentCalls(segments[i]) + BatchCalls(rest[1..]);
    assert segments[..i + 1] == before + [segments[i]];
    BatchCallsAppend(before, [segments[i]]);
  }

  /**
   * The transaction is the first entry added and is flushed at once, before
   * any segment; exactly two flushes are made, the last call being one, and
   * between them come the second batch's N + (segments with an error) entries.
   */
  lemma {:induction false} HandleCallsShape(t: Transaction)
    ensures HandleCalls(t)[0] == AddEntry(TransactionEntry(t))
    ensures HandleCalls(t)[1] == Flush
    ensures HandleCalls(t)[|HandleCalls(t)| - 1] == Flush
    ensures Flushes(HandleCalls(t)) == 2
    ensures |HandleCalls(t)| == 3 + |t.segments| + ErrorCount(t.segments)
    ensures HandleCalls(t)[2..|HandleCalls(t)| - 1] == BatchCalls(t.segments)
  {
    var head: seq<Call<Entry>> := [AddEntry(TransactionEntry(t)), Flush];
    BatchOnlyAdds(t.segments);
    BatchSize(t.segments);
    AddedAppend(head, BatchCalls(t.segments));
    AddedAppend(head + BatchCalls(t.segments), [Flush]);
    assert Flushes(head) == 1 by {
      assert head[1..] == [Flush];
    }
  }

  /** When the segments before `i` raised nothing and segment `i` raises nothing either, the batch up to `i` is clean too. */
  lemma BatchPassesSegment(segments: seq<Segment>, i: nat, faults: map<nat, Throwable>, from: nat)
    requires i < |segments|
    requires Attempt(BatchCalls(segments[..i]), faults, from) == (BatchCalls(segments[..i]), None)
    requires Attempt(SegmentCalls(segments[i]), faults, from + |BatchCalls(segments[..i])|).1.None?
    ensures Attempt(SegmentCalls(segments[i]), faults, from + |BatchCalls(segments[..i])|).0 == SegmentCalls(segments[i])
    ensures BatchCalls(segments[..i + 1]) == BatchCalls(segments[..i]) + SegmentCalls(segments[i])
    ensures Attempt(BatchCalls(segments[..i + 1]), faults, from) == (BatchCalls(segments[..i + 1]), None)
  {
    var done, calls := BatchCalls(segments[..i]), SegmentCalls(segments[i]);
    BatchSplit(segments, i);
    AttemptAppend(done, calls, faults, from);
    AttemptWithoutFault(calls, faults, from + |done|);
  }

  /** When the segments before `i` raised nothing and segment `i` raises, the whole batch stops there. */
  lemma BatchStopsInSegment(segments: seq<Segment>, i: nat, faults: map<nat, Throwable>, from: nat)
    requires i < |segments|
    requires Attempt(BatchCalls(segments[..i]), faults, from) == (BatchCalls(segments[..i]), None)
    requires Attempt(SegmentCalls(segments[i]), faults, from + |BatchCalls(segments[..i])|).1.Some?
    ensures var step := Attempt(SegmentCalls(segments[i]), faults, from + |BatchCalls(segments[..i])|);
      Attempt(BatchCalls(segments), faults, from) == (BatchCalls(segments[..i]) + step.0, step.1)
  {
    var done, calls := BatchCalls(segments[..i]), SegmentCalls(segments[i]);
    BatchSplit(segments, i);
    AttemptAppend(done, calls, faults, from);
    AttemptAppend(done + calls, BatchCalls(segments[i + 1..]), faults, from);
  }

  /** `handle` stops at once when adding the transaction throws. */
  lemma HandleStopsAtTransaction(t: Transaction, faults: map<nat, Throwable>, from: nat)
    requires from in faults
    ensures Attempt(HandleCalls(t), faults, from) == ([AddEntry(TransactionEntry(t))], Some(faults[from]))
  {
    assert HandleCalls(t)[0] == AddEntry(TransactionEntry(t));
  }

  /** `handle` stops after the transaction when the first flush throws. */
  lemma HandleStopsAtFirstFlush(t: Transaction, faults: map<nat, Throwable>, from: nat)
    requires from !in faults && from + 1 in faults
    ensures Attempt(HandleCalls(t), faults, from) == (HandleHead(t), Some(faults[from + 1]))
  {
    var planned := HandleCalls(t);
    AttemptStopsAt(planned, faults, from, 1);
    assert planned[..2] == HandleHead(t);
  }

  /** Once the head went through, `handle` goes on with the second batch and then the final flush. */
  lemma HandleAfterHead(t: Transaction, faults: map<nat, Throwable>, from: nat)
    requires from !in faults && from + 1 !in faults
    ensures Attempt(HandleCalls(t), faults, from) ==
      var rest := Attempt(BatchCalls(t.segments) + [Flush], faults, from + 2);
      (HandleHead(t) + rest.0, rest.1)
  {
    var head, tail := HandleHead(t), BatchCalls(t.segments) + [Flush];
    assert HandleCalls(t) == head + tail;
    AttemptCompletes(head, faults, from);
    AttemptAppend(head, tail, faults, from);
  }

  /** `handle` stops inside the second batch when one of its calls throws. */
  lemma HandleStopsInBatch(t: Transaction, faults: map<nat, Throwable>, from: nat)
    requires from !in faults && from + 1 !in faults
    requires Attempt(BatchCalls(t.segments), faults, from + 2).1.Some?
    ensures Attempt(HandleCalls(t), faults, from) ==
      var batch := Attempt(BatchCalls(t.segments), faults, from + 2);
      (HandleHead(t) + batch.0, batch.1)
  {
    HandleAfterHead(t, faults, from);
    AttemptAppend(BatchCalls(t.segments), [Flush], faults, from + 2);
  }

  /** When nothing before it throws, `handle` makes every call and raises what the final flush raises. */
  lemma HandleReachesLastFlush(t: Transaction, faults: map<nat, Throwable>, from: nat)
    requires from !in faults && from + 1 !in faults
    requires Attempt(BatchCalls(t.segments), faults, from + 2).1.None?
    ensures var last := from + 2 + |BatchCalls(t.segments)|;
      Attempt(HandleCalls(t), faults, from) ==
        (HandleHead(t) + (BatchCalls(t.segments) + [Flush]), if last in faults then Some(faults[last]) else None)
  {
    var batch := BatchCalls(t.segments);
    HandleAfterHead(t, faults, from);
    AttemptAppend(batch, [Flush], faults, from + 2);
    AttemptWithoutFault(batch, faults, from + 2);
    AttemptSingle(Call<Entry>.Flush, faults, from + 2 + |batch|);
  }

  /**
   * Proof helper, not part of the model: regroups a three-way concatenation
   * for the steps of `SendSegments` and `Handle`, where the solver does not
   * find the regrouping cheaply by itself.
   */
  lemma Regroup<T>(a: seq<T>, b: seq<T>, c: seq<T>, whole: seq<T>)
    requires whole == a + b + c
    ensures whole == a + (b + c)
  {
  }

  /** Proof helper, not part of the model: regroups a four-way concatenation for the last step of `Handle`. */
  lemma ConcatAssociates<T>(a: seq<T>, b: seq<T>, c: seq<T>, d: seq<T>)
    ensures a + b + c + d == a + (b + (c + d))
  {
  }

  class InspectorHandler {
    const transport: Transport<Entry>

    constructor (transport: Transport<Entry>)
      ensures this.transport == transport
    {
      this.transport := transport;
    }

    /** The body of the `foreach`: the segment, then its error when it has one. */
    method SendSegment(s: Segment) returns (fault: Option<Throwable>)
      modifies transport
      ensures
        var attempt := Attempt(SegmentCalls(s), transport.faults, |old(transport.calls)|);
        transport.calls == old(transport.calls) + attempt.0 && fault == attempt.1
    {
      ghost var from := |transport.calls|;
      fault := transport.AddEntry(SegmentEntry(s));
      if fault.Some? {
        AttemptStopsAt(SegmentCalls(s), transport.faults, from, 0);
        return;
      }
      if s.error.Some? {
        fault := transport.AddEntry(ErrorEntry(s.error.value));
        if fault.Some? {
          AttemptStopsAt(SegmentCalls(s), transport.faults, from, 1);
          return;
        }
      }
      AttemptCompletes(SegmentCalls(s), transport.faults, from);
    }

    /** The `foreach` over the segments, in `getSegments()` order. */
    method SendSegments(segments: seq<Segment>) returns (fault: Option<Throwable>)
      modifies transport
      ensures
        var attempt := Attempt(BatchCalls(segments), transport.faults, |old(transport.calls)|);
        transport.calls == old(transport.calls) + attempt.0 && fault == attempt.1
    {
      ghost var from := |transport.calls|;
      fault := None;
      var i := 0;
      assert segments[..0] == [];
      AttemptCompletes(BatchCalls(segments[..0]), transport.faults, from);
      while i < |segments|
        invariant 0 <= i <= |segments|
        invariant fault == None
        invariant transport.calls == old(transport.calls) + BatchCalls(segments[..i])
        invariant Attempt(BatchCalls(segments[..i]), transport.faults, from) == (BatchCalls(segments[..i]), None)
      {
        ghost var before := transport.calls;
        ghost var done := BatchCalls(segments[..i]);
        assert |before| == from + |done|;
        fault := SendSegment(segments[i]);
        ghost var step := Attempt(SegmentCalls(segments[i]), transport.faults, from + |done|);
        assert transport.calls == before + step.0 && fault == step.1;
        if fault.Some? {
          BatchStopsInSegment(segments, i, transport.faults, from);
          Regroup(old(transport.calls), done, step.0, transport.calls);
          return;
        }
        BatchPassesSegment(segments, i, transport.faults, from);
        Regroup(old(transport.calls), done, step.0, transport.calls);
        i := i + 1;
      }
      assert segments[..i] == segments;
    }

    /**
     * `handle($transaction)`: the transport receives the calls of
     * `HandleCalls(t)` up to the first that throws, and that fault
     * propagates unchanged.
     */
    method Handle(t: Transaction) returns (fault: Option<Throwable>)
      modifies transport
      ensures
        var attempt := Attempt(HandleCalls(t), transport.faults, |old(transport.calls)|);
        transport.calls == old(transport.calls) + attempt.0 && fault == attempt.1
    {
      ghost var from := |transport.calls|;
      fault := transport.AddEntry(TransactionEntry(t));
      if fault.Some? {
        HandleStopsAtTransaction(t, transport.faults, from);
        return;
      }
      fault := transport.Flush();
      if fault.Some? {
        HandleStopsAtFirstFlush(t, transport.faults, from);
        return;
      }
      ghost var started := transport.calls;
      assert started == old(transport.calls) + HandleHead(t);
      fault := SendSegments(t.segments);
      ghost var batch := Attempt(BatchCalls(t.segments), transport.faults, from + 2);
      assert transport.calls == started + batch.0 && fault == batch.1;
      if fault.Some? {
        HandleStopsInBatch(t, transport.faults, from);
        Regroup(old(transport.calls), HandleHead(t), batch.0, transport.calls);
        return;
      }
      AttemptWithoutFault(BatchCalls(t.segments), transport.faults, from + 2);
      fault := transport.Flush();
      HandleReachesLastFlush(t, transport.faults, from);
      ConcatAssociates(old(transport.calls), HandleHead(t), BatchCalls(t.segments), [Flush]);
    }
  }
}
