/**
 * `DailyDesk\Monitor\Monitor`: the recorder front-end. It subclasses the
 * base library's `Inspector`, whose state (the configuration, the installed
 * transport, the current transaction and the queue of entries) is held here
 * in the class's own fields. The few parent methods the monitor calls are
 * stand-ins that do only what the monitor relies on.
 */
module Recorder {
  import opened Wrappers
  import opened Php
  import opened Inspector
  import Helper

  const Version := "1.x-dev"
  const Url := "https://monitor.dailydesk.app"

  /** `Configuration::class`, as the `use Inspector\Configuration` import resolves it. */
  const ConfigurationClass := "Inspector\\Configuration"
  const ConfigurationMessage := "$configuration must be a string or an instance of " + ConfigurationClass

  const TransactionNameNotString := "Transaction name must be a string."
  const TransactionNameEmpty := "Transaction name cannot be empty."
  const SegmentTypeNotString := "Segment type must be a string."
  const SegmentTypeEmpty := "Segment type cannot be empty."
  const SegmentLabelNotString := "Segment label must be a string."
  const SegmentLabelEmpty := "Segment label cannot be empty."
  const SegmentWithoutTransaction := "Transaction must be started before recording a segment."
  const ReportWithoutTransaction := "Transaction must be started before reporting an error."

  /** Which transport the monitor installs: `NullTransport` or `CurlTransport`. */
  datatype TransportKind = NullKind | CurlKind

  /**
   * The classes `instanceof Configuration` accepts: the base library's
   * `Inspector\Configuration` and the monitor's own subclass of it.
   */
  const ConfigurationClasses := {ConfigurationClass, "DailyDesk\\Monitor\\Configuration"}

  /** A PHP value that is not a configuration object; those are `Given`. */
  type NonConfiguration = v: Value | !(v.Instance? && v.className in ConfigurationClasses) witness Nil

  /** What the constructor receives: a configuration object, or any other PHP value. */
  datatype ConfigurationArgument = Given(config: Configuration) | Other(value: NonConfiguration)

  /** The settings `new Configuration($key)` starts from; the base library decides them. */
  datatype BaseDefaults = BaseDefaults(url: string, version: string, transport: string)

  /** The process environment `start` reads: console detection, `argv`, and the request line. */
  datatype Environment = Environment(console: bool, argv: seq<string>, requestMethod: string, requestUri: string)

  /** A PHP value that is not a `Closure`; closures are `StartArgument.Closure`. */
  type NonClosure = v: Value | !(v.Instance? && v.className == "Closure") witness Nil

  /** The argument of `start`: a closure, or any other PHP value (`null` when omitted). */
  datatype StartArgument = Plain(value: NonClosure) | Closure

  /** An entry of the queue; transactions and segments are shared with whoever else holds them. */
  datatype Entry = TransactionEntry(started: Transaction) | SegmentEntry(segment: Segment) | ErrorEntry(error: Error)

  /** What the parent `startSegment` raises when there is no current transaction; its content is not modelled. */
  const MissingTransactionFault: Throwable

  /** The setting `'null'` selects the null transport, anything else the HTTP one. */
  function TransportFor(setting: string): (k: TransportKind)
    ensures k == NullKind <==> setting == "null"
  {
    if setting == "null" then NullKind else CurlKind
  }

  /** A name, type or label the guards accept: a string other than `''`. */
  predicate NonEmptyString(v: Value) {
    v.Text? && v.text != []
  }

  /** The guard of `startTransaction`: a string, and not empty. */
  function CheckTransactionName(name: Value): (r: Option<Throwable>)
    ensures r.None? <==> NonEmptyString(name)
    ensures !IsString(name) ==> r == Some(InvalidArgument(TransactionNameNotString))
    ensures IsString(name) && name.text == [] ==> r == Some(InvalidArgument(TransactionNameEmpty))
  {
    if !IsString(name) then Some(InvalidArgument(TransactionNameNotString))
    else if name.text == [] then Some(InvalidArgument(TransactionNameEmpty))
    else None
  }

  /**
   * The guards of `startSegment`, in the order they run: the type is a
   * string, it is not empty, the label is a string, it is not empty.
   */
  function CheckSegmentArguments(kind: Value, caption: Value := Nil): (r: Option<Throwable>)
    ensures r.None? <==> NonEmptyString(kind) && NonEmptyString(caption)
    ensures !IsString(kind) ==> r == Some(InvalidArgument(SegmentTypeNotString))
    ensures IsString(kind) && kind.text == [] ==> r == Some(InvalidArgument(SegmentTypeEmpty))
    ensures NonEmptyString(kind) && !IsString(caption) ==> r == Some(InvalidArgument(SegmentLabelNotString))
    ensures NonEmptyString(kind) && IsString(caption) && caption.text == [] ==> r == Some(InvalidArgument(SegmentLabelEmpty))
  {
    if !IsString(kind) then Some(InvalidArgument(SegmentTypeNotString))
    else if kind.text == [] then Some(InvalidArgument(SegmentTypeEmpty))
    else if !IsString(caption) then Some(InvalidArgument(SegmentLabelNotString))
    else if caption.text == [] then Some(InvalidArgument(SegmentLabelEmpty))
    else None
  }

  /** The label defaults to `null`, so a segment started without one is always refused. */
  lemma SegmentWithoutLabelRefused(kind: Value)
    ensures CheckSegmentArguments(kind).Some?
    ensures NonEmptyString(kind) ==> CheckSegmentArguments(kind) == Some(InvalidArgument(SegmentLabelNotString))
  {
  }

  /** A faulty type is reported whatever the label: the type is checked first. */
  lemma SegmentTypeCheckedFirst(kind: Value, a: Value, b: Value)
    requires !NonEmptyString(kind)
    ensures CheckSegmentArguments(kind, a) == CheckSegmentArguments(kind, b)
  {
  }

  /** `implode($glue, $parts)`. */
  function Join(parts: seq<string>, glue: string): string
    decreases |parts|
  {
    if parts == [] then ""
    else if |parts| == 1 then parts[0]
    else parts[0] + glue + Join(parts[1..], glue)
  }

  /** `explode($sep, $s)` for a one-character separator: never an empty list. */
  function Split(s: string, sep: char): (r: seq<string>)
    ensures |r| >= 1
    decreases |s|
  {
    if s == [] then [""]
    else
      var rest := Split(s[1..], sep);
      if s[0] == sep then [""] + rest else [[s[0]] + rest[0]] + rest[1..]
  }

  function TotalLength(parts: seq<string>): nat
    decreases |parts|
  {
    if parts == [] then 0 else |parts[0]| + TotalLength(parts[1..])
  }

  /** The joined string holds every part and one glue between each two. */
  lemma {:induction false} JoinLength(parts: seq<string>, glue: string)
    requires parts != []
    ensures |Join(parts, glue)| == TotalLength(parts) + (|parts| - 1) * |glue|
    decreases |parts|
  {
    if |parts| > 1 {
      JoinLength(parts[1..], glue);
    } else {
      assert parts[1..] == [];
    }
  }

  /** Joining with a single space gives `''` exactly for no parts or a single empty part. */
  lemma {:induction false} JoinBySpaceEmpty(parts: seq<string>)
    ensures Join(parts, " ") == "" <==> parts == [] || parts == [""]
  {
    if parts != [] {
      JoinLength(parts, " ");
      if |parts| == 1 {
        assert parts[1..] == [];
        assert TotalLength(parts) == |parts[0]|;
        assert parts == [parts[0]];
      }
    }
  }

  /** A prefix without the separator becomes the start of the first piece. */
  lemma {:induction false} SplitPrefix(p: string, s: string, sep: char)
    requires forall i :: 0 <= i < |p| ==> p[i] != sep
    ensures Split(p + s, sep) == [p + Split(s, sep)[0]] + Split(s, sep)[1..]
    decreases |p|
  {
    if p != [] {
      assert (p + s)[0] == p[0];
      assert (p + s)[1..] == p[1..] + s;
      SplitPrefix(p[1..], s, sep);
      assert [p[0]] + (p[1..] + Split(s, sep)[0]) == p + Split(s, sep)[0];
    } else {
      var r := Split(s, sep);
      assert p + s == s && p + r[0] == r[0];
      assert r == [r[0]] + r[1..];
    }
  }

  /** No part contains the character `c`. */
  predicate FreeOf(parts: seq<string>, c: char) {
    forall k, i :: 0 <= k < |parts| && 0 <= i < |parts[k]| ==> parts[k][i] != c
  }

  /** `explode` undoes `implode` when no part contains the separator. */
  lemma {:induction false} SplitJoin(parts: seq<string>, sep: char)
    requires parts != [] && FreeOf(parts, sep)
    ensures Split(Join(parts, [sep]), sep) == parts
    decreases |parts|
  {
    var p := parts[0];
    assert forall i :: 0 <= i < |p| ==> p[i] != sep by {
      forall i | 0 <= i < |p| ensures p[i] != sep {
        assert parts[0][i] != sep;
      }
    }
    if |parts| == 1 {
      SplitPrefix(p, [], sep);
      assert p + [] == p;
      assert parts == [p];
    } else {
      var tail := parts[1..];
      assert FreeOf(tail, sep) by {
        forall k, i | 0 <= k < |tail| && 0 <= i < |tail[k]| ensures tail[k][i] != sep {
          assert tail[k] == parts[k + 1];
        }
      }
      SplitJoin(tail, sep);
      var s := [sep] + Join(tail, [sep]);
      assert Join(parts, [sep]) == p + s;
      SplitPrefix(p, s, sep);
      assert s[0] == sep && s[1..] == Join(tail, [sep]);
      assert Split(s, sep) == [""] + tail;
      assert p + "" == p;
      assert parts == [p] + tail;
    }
  }

  /**
   * The name `start` derives: a string argument wins; otherwise the console
   * command line joined by spaces, or the request method and URI.
   */
  function TransactionName(env: Environment, arg: StartArgument): (name: string)
    ensures arg.Plain? && IsString(arg.value) ==> name == arg.value.text
    ensures !(arg.Plain? && IsString(arg.value)) && !env.console ==> name == env.requestMethod + " " + env.requestUri
  {
    if arg.Plain? && IsString(arg.value) then arg.value.text
    else if env.console then Join(env.argv, " ")
    else env.requestMethod + " " + env.requestUri
  }

  /** In a console without a string argument, the words of the command line come back from the name. */
  lemma TransactionNameKeepsArgv(env: Environment, arg: StartArgument)
    requires env.console && !(arg.Plain? && IsString(arg.value))
    requires env.argv != [] && FreeOf(env.argv, ' ')
    ensures Split(TransactionName(env, arg), ' ') == env.argv
  {
    SplitJoin(env.argv, ' ');
  }

  /**
   * The derived name is refused as empty exactly when a string argument is
   * `''`, or, without one, in a console whose `argv` is empty or one empty
   * word; a request name always holds at least the space.
   */
  lemma TransactionNameEmptyWhen(env: Environment, arg: StartArgument)
    ensures TransactionName(env, arg) == [] <==>
      if arg.Plain? && IsString(arg.value) then arg.value.text == []
      else env.console && (env.argv == [] || env.argv == [""])
  {
    JoinBySpaceEmpty(env.argv);
  }

  /**
   * The error `reportException` returns and enqueues: the built error with
   * its `handled` flag set, its host and transaction removed, and a segment
   * reference that holds only the error segment's hash.
   */
  function LinkError(built: Error, handled: bool, segmentHash: string): (e: Error)
    ensures e.host == None && e.transaction == None
    ensures e.segment == Some(map["hash" := Text(segmentHash)])
    ensures e.handled == handled
    ensures e.message == built.message && e.className == built.className && e.file == built.file
    ensures e.line == built.line && e.code == built.code && e.stack == built.stack
  {
    built.(handled := handled).(host := None, transaction := None, segment := Some(map["hash" := Text(segmentHash)]))
  }

  /** Linking drops nothing the flat error record carries. */
  lemma LinkErrorKeepsErrorData(built: Error, handled: bool, segmentHash: string)
    ensures Helper.ParseErrorData(LinkError(built, handled, segmentHash), handled) == Helper.ParseErrorData(built, handled)
  {
    Helper.ParseErrorDataDeterminedBySixFields(LinkError(built, handled, segmentHash), built, handled);
  }

  /** The transaction reference `startSegment` leaves on a segment: the owner's hash and timestamp, nothing else. */
  function TransactionReference(owner: Transaction): (m: map<string, Value>)
    reads owner
    ensures m.Keys == {"hash", "timestamp"}
    ensures m["hash"] == Text(owner.hash) && m["timestamp"] == Stamp(owner.timestamp)
  {
    map["hash" := Text(owner.hash), "timestamp" := Stamp(owner.timestamp)]
  }

  /** How `reportException` leaves its error segment. */
  predicate IsErrorSegment(s: Segment, owner: Transaction, message: string, hash: string, now: real, elapsed: real)
    reads s, owner
  {
    && s.kind == "error" && s.caption == message && s.hash == hash
    && s.timestamp == Some(now) && s.duration == Some(elapsed)
    && s.host == None && s.transaction == TransactionReference(owner)
  }

  class Monitor {
    const configuration: Configuration
    const transportKind: TransportKind
    var transaction: Option<Transaction>
    var queue: seq<Entry>

    /** `parent::__construct($configuration)`, then the transport choice. */
    constructor (configuration: Configuration)
      ensures this.configuration == configuration
      ensures transportKind == TransportFor(configuration.transport)
      ensures transaction == None && queue == []
    {
      this.configuration := configuration;
      transportKind := TransportFor(configuration.transport);
      transaction := None;
      queue := [];
    }

    /**
     * `new Monitor($configuration)`: a configuration object is kept as it
     * is; a string is an ingestion key, for which a configuration is built
     * and pointed at the monitor's URL and version; anything else is refused.
     */
    static method Create(argument: ConfigurationArgument, base: BaseDefaults) returns (r: Result<Monitor, Throwable>)
      ensures argument.Other? && !IsString(argument.value) ==> r == Err(InvalidArgument(ConfigurationMessage))
      ensures argument.Given? ==> r.Ok? && r.value.configuration == argument.config
      ensures argument.Other? && IsString(argument.value) ==>
        && r.Ok? && fresh(r.value.configuration)
        && r.value.configuration.ingestionKey == argument.value.text
        && r.value.configuration.url == Url && r.value.configuration.version == Version
        && r.value.configuration.transport == base.transport
      ensures r.Ok? ==> fresh(r.value) && r.value.transaction == None && r.value.queue == []
      ensures r.Ok? ==> r.value.transportKind == TransportFor(r.value.configuration.transport)
    {
      match argument
      case Given(config) =>
        var m := new Monitor(config);
        r := Ok(m);
      case Other(v) =>
        if !IsString(v) {
          r := Err(InvalidArgument(ConfigurationMessage));
          return;
        }
        var config := new Configuration(v.text, base.url, base.version, base.transport);
        config.SetUrl(Url);
        config.SetVersion(Version);
        var m := new Monitor(config);
        r := Ok(m);
    }

    /** The parent `addEntries($entry)`, as the monitor relies on it: the entry is appended. */
    method AddEntries(entry: Entry)
      modifies this
      ensures queue == old(queue) + [entry] && transaction == old(transaction)
    {
      queue := queue + [entry];
    }

    /** `parent::startTransaction($name)`: a new, started transaction becomes current and is enqueued. */
    method ParentStartTransaction(name: string, hash: Hash, now: real) returns (t: Transaction)
      modifies this
      ensures fresh(t) && t.name == name && t.hash == hash && t.timestamp == Some(now)
      ensures transaction == Some(t) && queue == old(queue) + [TransactionEntry(t)]
    {
      t := new Transaction(name, hash, now);
      transaction := Some(t);
      AddEntries(TransactionEntry(t));
    }

    /** `parent::startSegment($type, $label)`: a new, started segment bound to the current transaction, enqueued. */
    method ParentStartSegment(kind: string, caption: string, now: real) returns (r: Result<Segment, Throwable>)
      modifies this
      ensures transaction == old(transaction)
      ensures old(transaction).None? ==> r == Err(MissingTransactionFault) && queue == old(queue)
      ensures old(transaction).Some? ==>
        && r.Ok? && fresh(r.value) && queue == old(queue) + [SegmentEntry(r.value)]
        && r.value.kind == kind && r.value.caption == caption
        && r.value.timestamp == Some(now) && r.value.duration == None
        && "hash" in r.value.transaction && r.value.transaction["hash"] == Text(transaction.value.hash)
        && "timestamp" in r.value.transaction && r.value.transaction["timestamp"] == Stamp(transaction.value.timestamp)
    {
      if transaction.None? {
        r := Err(MissingTransactionFault);
        return;
      }
      var s := new Segment(transaction.value, kind, caption, now);
      AddEntries(SegmentEntry(s));
      r := Ok(s);
    }

    /** `startTransaction($name)`: the name guard, then the parent call. */
    method StartTransaction(name: Value, hash: Hash, now: real) returns (r: Result<Transaction, Throwable>)
      modifies this
      ensures CheckTransactionName(name).Some? ==>
        r == Err(CheckTransactionName(name).value) && transaction == old(transaction) && queue == old(queue)
      ensures CheckTransactionName(name).None? ==>
        && r.Ok? && fresh(r.value) && r.value.name == name.text && r.value.hash == hash
        && r.value.timestamp == Some(now)
        && transaction == Some(r.value) && queue == old(queue) + [TransactionEntry(r.value)]
    {
      var refused := CheckTransactionName(name);
      if refused.Some? {
        r := Err(refused.value);
        return;
      }
      var t := ParentStartTransaction(name.text, hash, now);
      r := Ok(t);
    }

    /**
     * `startSegment($type, $label = null)`: the four guards, the parent
     * call, then a fresh hash, the transaction reference cut to its hash and
     * timestamp, and the host removed. The segment is the one just enqueued.
     */
    method StartSegment(segmentHash: Hash, now: real, kind: Value, caption: Value := Nil) returns (r: Result<Segment, Throwable>)
      modifies this
      ensures transaction == old(transaction)
      ensures CheckSegmentArguments(kind, caption).Some? ==>
        r == Err(CheckSegmentArguments(kind, caption).value) && queue == old(queue)
      ensures CheckSegmentArguments(kind, caption).None? && transaction.None? ==>
        r == Err(MissingTransactionFault) && queue == old(queue)
      ensures CheckSegmentArguments(kind, caption).None? && transaction.Some? ==>
        && r.Ok? && fresh(r.value) && queue == old(queue) + [SegmentEntry(r.value)]
        && r.value.hash == segmentHash && r.value.host == None
        && r.value.transaction == TransactionReference(transaction.value)
        && r.value.kind == kind.text && r.value.caption == caption.text
        && r.value.timestamp == Some(now) && r.value.duration == None
    {
      var refused := CheckSegmentArguments(kind, caption);
      if refused.Some? {
        r := Err(refused.value);
        return;
      }
      r := ParentStartSegment(kind.text, caption.text, now);
      if r.Err? {
        return;
      }
      var s := r.value;
      s.hash := segmentHash;
      s.transaction := map["hash" := s.transaction["hash"], "timestamp" := s.transaction["timestamp"]];
      s.host := None;
    }

    /**
     * `start($callback = null)`: derives the type and name, starts the
     * transaction, marks it `success` and, for a closure, calls it once with
     * the transaction; `calls` lists the closure's arguments.
     */
    method Start(env: Environment, arg: StartArgument, hash: Hash, now: real)
      returns (r: Result<Transaction, Throwable>, calls: seq<Transaction>)
      modifies this
      ensures TransactionName(env, arg) == [] ==>
        r == Err(InvalidArgument(TransactionNameEmpty)) && calls == []
        && transaction == old(transaction) && queue == old(queue)
      ensures TransactionName(env, arg) != [] ==>
        && r.Ok? && fresh(r.value) && transaction == Some(r.value)
        && queue == old(queue) + [TransactionEntry(r.value)]
        && r.value.name == TransactionName(env, arg) && r.value.hash == hash && r.value.timestamp == Some(now)
        && r.value.kind == Some(if env.console then "command" else "request") && r.value.result == Some("success")
        && calls == (if arg.Closure? then [r.value] else [])
    {
      var kind := if env.console then "command" else "request";
      var name := TransactionName(env, arg);
      calls := [];
      r := StartTransaction(Text(name), hash, now);
      if r.Err? {
        return;
      }
      var t := r.value;
      t.SetType(kind);
      t.SetResult("success");
      if arg.Closure? {
        calls := [t];
      }
    }

    /**
     * Lines 156-168 of `reportException`, run once a transaction is current:
     * an `error` segment labelled with the message, ended, then the linked
     * error appended right after it.
     */
    method RecordError(e: Throwable, built: Error, segmentHash: Hash, now: real, elapsed: real, handled: bool)
      returns (r: Result<Error, Throwable>)
      modifies this
      ensures transaction == old(transaction)
      ensures e.message == [] ==> r == Err(InvalidArgument(SegmentLabelEmpty)) && queue == old(queue)
      ensures e.message != [] && transaction.None? ==> r == Err(MissingTransactionFault) && queue == old(queue)
      ensures e.message != [] && transaction.Some? ==>
        && r == Ok(LinkError(built, handled, segmentHash))
        && |queue| == |old(queue)| + 2 && queue[..|old(queue)|] == old(queue)
        && queue[|old(queue)|].SegmentEntry? && queue[|old(queue)| + 1] == ErrorEntry(r.value)
        && IsErrorSegment(queue[|old(queue)|].segment, transaction.value, e.message, segmentHash, now, elapsed)
    {
      var started := StartSegment(segmentHash, now, Text("error"), Text(e.message));
      if started.Err? {
        r := Err(started.error);
        return;
      }
      var segment := started.value;
      var error := built.(handled := handled);
      segment.End(elapsed);
      error := error.(host := None, transaction := None, segment := Some(map["hash" := Text(segment.hash)]));
      AddEntries(ErrorEntry(error));
      r := Ok(error);
    }

    /**
     * `reportException($exception, $handled = true)`: starts a transaction
     * from the environment when none is current, then records the error.
     * The clock is read twice: `startNow` when the transaction is started,
     * `now` when the error segment is.
     */
    method ReportException(e: Throwable, built: Error, env: Environment, transactionHash: Hash, startNow: real,
                           segmentHash: Hash, now: real, elapsed: real, handled: bool := true)
      returns (r: Result<Error, Throwable>)
      modifies this
      ensures old(transaction).Some? ==> transaction == old(transaction)
      ensures old(transaction).None? && TransactionName(env, Plain(Nil)) == [] ==>
        r == Err(InvalidArgument(TransactionNameEmpty)) && transaction == None && queue == old(queue)
      ensures old(transaction).None? && TransactionName(env, Plain(Nil)) != [] ==>
        && transaction.Some? && fresh(transaction.value)
        && transaction.value.name == TransactionName(env, Plain(Nil)) && transaction.value.hash == transactionHash
        && transaction.value.kind == Some(if env.console then "command" else "request") && transaction.value.result == Some("success")
        && transaction.value.timestamp == Some(startNow)
      ensures transaction.Some? ==>
        var before := if old(transaction).Some? then old(queue) else old(queue) + [TransactionEntry(transaction.value)];
        && (e.message == [] ==> r == Err(InvalidArgument(SegmentLabelEmpty)) && queue == before)
        && (e.message != [] ==>
          && r == Ok(LinkError(built, handled, segmentHash))
          && |queue| == |before| + 2 && queue[..|before|] == before
          && queue[|before|].SegmentEntry? && queue[|before| + 1] == ErrorEntry(r.value)
          && IsErrorSegment(queue[|before|].segment, transaction.value, e.message, segmentHash, now, elapsed))
    {
      if transaction.None? {
        var started, _ := Start(env, Plain(Nil), transactionHash, startNow);
        if started.Err? {
          r := Err(started.error);
          return;
        }
      }
      r := RecordError(e, built, segmentHash, now, elapsed, handled);
    }

    /**
     * `segment($type, $label, $callback)`: refuses without a current
     * transaction, and otherwise passes on what the parent `addSegment`
     * returns, replacing any exception by a `MonitorException` with the same
     * message and code. `added` is that call's outcome; what it records is
     * the base library's affair.
     */
    method Segment<R>(kind: string, caption: string, added: Result<R, Throwable>) returns (r: Result<R, Throwable>)
      ensures transaction.None? ==> r == Err(Logic(SegmentWithoutTransaction))
      ensures transaction.Some? && added.Ok? ==> r == added
      ensures transaction.Some? && added.Err? ==> r == Err(Rethrown(added.error, false))
    {
      if transaction.None? {
        return Err(Logic(SegmentWithoutTransaction));
      }
      match added
      case Ok(v) =>
        r := Ok(v);
      case Err(fault) =>
        r := Err(Rethrown(fault, false));
    }

    /**
     * `report($e)`: refuses without a current transaction; otherwise it is
     * `reportException($e)` with `handled` true, its failure replaced by a
     * `MonitorException` with the same message and code.
     */
    method Report(e: Throwable, built: Error, segmentHash: Hash, now: real, elapsed: real) returns (r: Result<Error, Throwable>)
      modifies this
      ensures transaction == old(transaction)
      ensures old(transaction).None? ==> r == Err(Logic(ReportWithoutTransaction)) && queue == old(queue)
      ensures old(transaction).Some? && e.message == [] ==>
        r == Err(Rethrown(InvalidArgument(SegmentLabelEmpty), false)) && queue == old(queue)
      ensures old(transaction).Some? && e.message != [] ==>
        && r == Ok(LinkError(built, true, segmentHash))
        && |queue| == |old(queue)| + 2 && queue[..|old(queue)|] == old(queue)
        && queue[|old(queue)|].SegmentEntry? && queue[|old(queue)| + 1] == ErrorEntry(r.value)
        && IsErrorSegment(queue[|old(queue)|].segment, transaction.value, e.message, segmentHash, now, elapsed)
    {
      if transaction.None? {
        r := Err(Logic(ReportWithoutTransaction));
        return;
      }
      r := RecordError(e, built, segmentHash, now, elapsed, true);
      if r.Err? {
        r := Err(Rethrown(r.error, false));
      }
    }
  }
}
