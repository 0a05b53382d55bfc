/**
 * `DailyDesk\Monitor\Models`: the monitor's own transaction subclass, which
 * starts out successful and lets its name be replaced, and the segment
 * subclass's two lifecycle queries.
 */
module Models {
  import opened Wrappers

  const ResultSuccess := "success"
  const ResultError := "error"

  /** `DailyDesk\Monitor\Models\Transaction`, with the base fields it reads and writes. */
  class Transaction {
    var name: string
    var result: string
    var timestamp: Option<real>

    /** `new Transaction($name)`: the base constructor, then the result set to success. */
    constructor (name: string)
      ensures this.name == name && result == ResultSuccess
      ensures !IsStarted()
    {
      this.name := name;
      timestamp := None;
      result := ResultSuccess;
    }

    /** The base class's `start()`, as far as `isStarted` sees it: the timestamp is set. */
    method Start(now: real)
      modifies this
      ensures timestamp == Some(now) && IsStarted()
      ensures name == old(name) && result == old(result)
    {
      timestamp := Some(now);
    }

    /** `setName($name)`: replaces the name only, and returns the transaction itself for chaining. */
    method SetName(name: string) returns (self: Transaction)
      modifies this
      ensures self == this
      ensures this.name == name
      ensures result == old(result) && timestamp == old(timestamp)
      ensures IsStarted() == old(IsStarted())
    {
      this.name := name;
      self := this;
    }

    /** `isStarted()`: true exactly when a timestamp is set. */
    predicate IsStarted()
      reads this
    {
      timestamp.Some?
    }
  }

  /** `DailyDesk\Monitor\Models\Segment`, as its two queries see it. */
  datatype Segment = Segment(timestamp: Option<real>, duration: Option<real>) {

    /** `isStarted()`: true exactly when a timestamp is set. */
    predicate IsStarted() {
      timestamp.Some?
    }

    /** `isEnded()`: true exactly when a duration is set and it is positive. */
    predicate IsEnded() {
      duration.Some? && duration.value > 0.0
    }
  }

  /** A segment is ended exactly when it has a positive duration, started or not. */
  lemma SegmentEndedIffPositiveDuration(s: Segment, d: real)
    ensures s.(duration := Some(d)).IsEnded() <==> d > 0.0
    ensures !s.(duration := None).IsEnded()
  {
  }

  /** A zero duration does not count as ended. */
  lemma ZeroDurationNotEnded(s: Segment)
    requires s.duration == Some(0.0)
    ensures !s.IsEnded()
  {
  }

  /** `isEnded` does not look at the timestamp, nor `isStarted` at the duration. */
  lemma SegmentQueriesIndependent(s: Segment, t: Option<real>, d: Option<real>)
    ensures s.(timestamp := t).IsEnded() == s.IsEnded()
    ensures s.(duration := d).IsStarted() == s.IsStarted()
  {
  }

  /** An ended segment need not have been started: the two queries are independent. */
  lemma EndedDoesNotImplyStarted()
    ensures Segment(None, Some(1.0)).IsEnded() && !Segment(None, Some(1.0)).IsStarted()
  {
  }
}
