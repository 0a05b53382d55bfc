/**
 * A transport (`Inspector\Transports\TransportInterface`) as the delivery
 * handlers see it: a receiver of `addEntry` and `flush` calls, any of which
 * may throw. The calls it receives are recorded in order, so that the
 * handlers' call ordering can be stated and proved.
 */
module Delivery {
  import opened Wrappers
  import opened Php

  datatype Call<E> = AddEntry(entry: E) | Flush

  /** One `addEntry` call per entry, in order. */
  function Adds<E>(entries: seq<E>): (calls: seq<Call<E>>)
    ensures |calls| == |entries|
    ensures forall i :: 0 <= i < |entries| ==> calls[i] == AddEntry(entries[i])
  {
    if entries == [] then [] else [AddEntry(entries[0])] + Adds(entries[1..])
  }

  /** The entries passed to `addEntry`, in call order. */
  function Added<E>(calls: seq<Call<E>>): seq<E> {
    if calls == [] then []
    else (if calls[0].AddEntry? then [calls[0].entry] else []) + Added(calls[1..])
  }

  /** The number of `flush` calls. */
  function Flushes<E>(calls: seq<Call<E>>): nat {
    if calls == [] then 0 else (if calls[0].Flush? then 1 else 0) + Flushes(calls[1..])
  }

  lemma AddedAppend<E>(a: seq<Call<E>>, b: seq<Call<E>>)
    ensures Added(a + b) == Added(a) + Added(b)
    ensures Flushes(a + b) == Flushes(a) + Flushes(b)
  {
    AddedOfAppend(a, b);
    FlushesOfAppend(a, b);
  }

  lemma {:induction false} AddedOfAppend<E>(a: seq<Call<E>>, b: seq<Call<E>>)
    ensures Added(a + b) == Added(a) + Added(b)
    decreases |a|
  {
    if a == [] {
      assert a + b == b;
    } else {
      var ab := a + b;
      assert ab[0] == a[0] && ab[1..] == a[1..] + b;
      AddedOfAppend(a[1..], b);
      var head: seq<E> := if a[0].AddEntry? then [a[0].entry] else [];
      assert Added(ab) == head + Added(ab[1..]);
      assert Added(a) == head + Added(a[1..]);
    }
  }

  lemma {:induction false} FlushesOfAppend<E>(a: seq<Call<E>>, b: seq<Call<E>>)
    ensures Flushes(a + b) == Flushes(a) + Flushes(b)
    decreases |a|
  {
    if a == [] {
      assert a + b == b;
    } else {
      var ab := a + b;
      assert ab[0] == a[0] && ab[1..] == a[1..] + b;
      FlushesOfAppend(a[1..], b);
    }
  }

  /** Adding a sequence of entries passes each exactly once, in order, and flushes nothing. */
  lemma {:induction false} AddedAdds<E>(entries: seq<E>)
    ensures Added(Adds(entries)) == entries
    ensures Flushes(Adds(entries)) == 0
  {
    if entries != [] {
      assert Adds(entries)[1..] == Adds(entries[1..]);
      AddedAdds(entries[1..]);
    }
  }

  /**
   * Making the calls `planned` in order, the first at call number `from`,
   * when the calls numbered in `faults` throw: the calls actually made (up to
   * and including the first that throws) and the exception raised, if any.
   */
  function Attempt<E>(planned: seq<Call<E>>, faults: map<nat, Throwable>, from: nat): (r: (seq<Call<E>>, Option<Throwable>))
    ensures |r.0| <= |planned|
    decreases |planned|
  {
    if planned == [] then ([], None)
    else if from in faults then ([planned[0]], Some(faults[from]))
    else
      var rest := Attempt(planned[1..], faults, from + 1);
      ([planned[0]] + rest.0, rest.1)
  }

  /** Calls that do not throw can be taken off the front of an attempt. */
  lemma {:induction false} AttemptSkip<E>(planned: seq<Call<E>>, faults: map<nat, Throwable>, from: nat, k: nat)
    requires k <= |planned|
    requires forall j :: from <= j < from + k ==> j !in faults
    ensures Attempt(planned, faults, from).0 == planned[..k] + Attempt(planned[k..], faults, from + k).0
    ensures Attempt(planned, faults, from).1 == Attempt(planned[k..], faults, from + k).1
    decreases k
  {
    if k == 0 {
      assert planned[..0] == [] && planned[0..] == planned;
    } else {
      assert from !in faults;
      var rest := Attempt(planned[1..], faults, from + 1);
      assert Attempt(planned, faults, from) == ([planned[0]] + rest.0, rest.1);
      AttemptSkip(planned[1..], faults, from + 1, k - 1);
      assert planned[1..][k - 1..] == planned[k..];
      var later := Attempt(planned[k..], faults, from + k);
      assert rest.0 == planned[1..][..k - 1] + later.0;
      ConsRegroup(planned[0], planned[1..][..k - 1], later.0, planned[..k]);
    }
  }

  /** Proof helper, not part of the model: regroups a concatenation for the step of `AttemptSkip`. */
  lemma ConsRegroup<T>(x: T, p: seq<T>, q: seq<T>, front: seq<T>)
    requires front == [x] + p
    ensures [x] + (p + q) == front + q
  {
  }

  /** What happens to an attempt when the call at position `k` is the first to throw. */
  lemma {:induction false} AttemptStopsAt<E>(planned: seq<Call<E>>, faults: map<nat, Throwable>, from: nat, k: nat)
    requires k < |planned|
    requires forall j :: from <= j < from + k ==> j !in faults
    requires from + k in faults
    ensures Attempt(planned, faults, from) == (planned[..k + 1], Some(faults[from + k]))
  {
    AttemptSkip(planned, faults, from, k);
    assert planned[..k] + [planned[k]] == planned[..k + 1];
  }

  /** What happens to an attempt when no planned call throws. */
  lemma {:induction false} AttemptCompletes<E>(planned: seq<Call<E>>, faults: map<nat, Throwable>, from: nat)
    requires forall j :: from <= j < from + |planned| ==> j !in faults
    ensures Attempt(planned, faults, from) == (planned, None)
  {
    AttemptSkip(planned, faults, from, |planned|);
    assert planned[..|planned|] == planned && planned[|planned|..] == [];
    assert Attempt(planned[|planned|..], faults, from + |planned|) == ([], None);
    var r := Attempt(planned, faults, from);
    assert r.0 == planned + [] == planned;
    assert r.1 == None;
    assert r == (r.0, r.1);
  }

  /** A single call is always made, and throws when its number is among the faults. */
  lemma {:induction false} AttemptSingle<E>(c: Call<E>, faults: map<nat, Throwable>, from: nat)
    ensures Attempt([c], faults, from) == ([c], if from in faults then Some(faults[from]) else None)
  {
    assert [c][1..] == [];
    var r := Attempt([c], faults, from);
    if from !in faults {
      assert Attempt([c][1..], faults, from + 1) == ([], None);
      assert r.0 == [c] + [] == [c] && r.1 == None;
    }
    assert r == (r.0, r.1);
  }

  /** An attempt that raised nothing made every planned call. */
  lemma {:induction false} AttemptWithoutFault<E>(planned: seq<Call<E>>, faults: map<nat, Throwable>, from: nat)
    requires Attempt(planned, faults, from).1.None?
    ensures Attempt(planned, faults, from).0 == planned
    decreases |planned|
  {
    if planned != [] {
      AttemptWithoutFault(planned[1..], faults, from + 1);
    }
  }

  /**
   * Attempting `a + b` attempts `a`, and only when that raised nothing goes
   * on to attempt `b` from the next call number.
   */
  lemma {:induction false} AttemptAppend<E>(a: seq<Call<E>>, b: seq<Call<E>>, faults: map<nat, Throwable>, from: nat)
    ensures Attempt(a + b, faults, from) ==
      if Attempt(a, faults, from).1.Some? then Attempt(a, faults, from)
      else (a + Attempt(b, faults, from + |a|).0, Attempt(b, faults, from + |a|).1)
    decreases |a|
  {
    if a == [] {
      var back := Attempt(b, faults, from);
      assert a + b == b && a + back.0 == back.0;
      assert Attempt(a, faults, from) == ([], None);
    } else {
      assert (a + b)[0] == a[0] && (a + b)[1..] == a[1..] + b;
      if from !in faults {
        AttemptAppend(a[1..], b, faults, from + 1);
        var whole, front := Attempt(a[1..] + b, faults, from + 1), Attempt(a[1..], faults, from + 1);
        assert Attempt(a + b, faults, from) == ([a[0]] + whole.0, whole.1);
        assert Attempt(a, faults, from) == ([a[0]] + front.0, front.1);
        if front.1.None? {
          var back := Attempt(b, faults, from + |a|);
          assert whole == (a[1..] + back.0, back.1);
          assert [a[0]] + (a[1..] + back.0) == a + back.0;
        }
      }
    }
  }

  /** A transport that records the calls it receives; call number `n` throws `faults[n]`. */
  class Transport<E> {
    var calls: seq<Call<E>>
    const faults: map<nat, Throwable>

    constructor (faults: map<nat, Throwable>)
      ensures calls == [] && this.faults == faults
    {
      calls := [];
      this.faults := faults;
    }

    method AddEntry(entry: E) returns (fault: Option<Throwable>)
      modifies this
      ensures calls == old(calls) + [Call.AddEntry(entry)]
      ensures fault == (if |old(calls)| in faults then Some(faults[|old(calls)|]) else None)
    {
      fault := if |calls| in faults then Some(faults[|calls|]) else None;
      calls := calls + [Call.AddEntry(entry)];
    }

    method Flush() returns (fault: Option<Throwable>)
      modifies this
      ensures calls == old(calls) + [Call.Flush]
      ensures fault == (if |old(calls)| in faults then Some(faults[|old(calls)|]) else None)
    {
      fault := if |calls| in faults then Some(faults[|calls|]) else None;
      calls := calls + [Call.Flush];
    }
  }
}
