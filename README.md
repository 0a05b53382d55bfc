# monitor-php, modelled in Dafny

A model of the recording front-end and delivery pipeline of the DailyDesk
monitor client for PHP (`dailydesk/monitor-php`), with proofs of what its
code promises.

The pieces modelled:

- **The recorder** `DailyDesk\Monitor\Monitor` (module `Recorder`), a
  subclass of the base APM library's `Inspector`. The model holds the
  parent's state in its own fields: the configuration, the installed
  transport kind, the current transaction and the queue of entries. It covers:
  - the constructor's argument handling and transport choice;
  - the guards of `startTransaction` and `startSegment` and their fixed
    messages;
  - the reshaping of every new segment (fresh hash, transaction reference cut
    to `hash` and `timestamp`, host removed);
  - the name and type `start` derives from the environment;
  - the entry chain `reportException` builds (transaction if needed, an
    ended `error` segment, the linked error right after it);
  - the transaction guards and exception wrapping of `segment` and `report`.
- **The delivery handlers.**
  - `TransportHandler` (module `TransportHandler`) adds every queue entry
    to a transport in order, then flushes once.
  - `InspectorHandler` (module `InspectorHandler`) sends the transaction,
    flushes, sends each segment followed by its error, and flushes again.
  - A transport is modelled as an object that records the calls it receives
    (module `Delivery`). A fault map says which call numbers throw, and
    `Delivery.Attempt` gives the calls actually made and the exception raised.
- **The transports.**
  - `NullTransport` is an in-memory append/reset queue (module `NullTransport`).
  - `CurlTransport` and `SyncTransport` (module `Transports`) each point the
    shared configuration at `<base URL>/ingest/entries` for one base
    `sendChunk` call and then restore it. `CurlTransport` trims `/` from the
    base URL; `SyncTransport` does not. Module `Endpoint` proves what that
    difference means. Both transports send the same four headers.
- **The entry models and the error record.**
  - `Models\Transaction` starts out with result `success`; `setName` changes
    only the name; `isStarted` tests the timestamp (module `Models`).
  - `Models\Segment`'s `isStarted` and `isEnded` are independent, and a
    segment is ended only with a positive duration.
  - `Helper::parseErrorData` is the fixed seven-key projection of an error
    (module `Helper`).

The base library (`Inspector\Inspector`, its models and its curl transport)
is not part of this model. Module `Inspector` declares the part of it the
monitor relies on:
- the configuration object;
- transactions and segments, as classes, because the queue and the
  recorder share the same objects and `startSegment`/`reportException`
  still change them after they are enqueued;
- the error record;
- a base curl transport that logs each chunk with the URL configured at
  the time of the call.

Values that come from outside the program are parameters:
- generated hashes (non-empty strings);
- clock readings (`now`, `elapsed`);
- the process environment (console detection, `argv`, the request method
  and URI);
- the error the base library builds from a throwable (`built`);
- the outcome of the parent `addSegment`;
- the fault map of a transport.

Where the code and its tests disagree, the model follows the code. The
constructor's message ends in `Configuration::class`. Because of
`use Inspector\Configuration` (src/Monitor.php:11), that resolves to
`Inspector\Configuration`. The tests build the expected message with
`DailyDesk\Monitor\Configuration`. The model uses `Inspector\Configuration`
(`Recorder.ConfigurationMessage`).

Without a current transaction, `startSegment` (src/Monitor.php:136) leaves
the case to the parent `Inspector::startSegment`, which is outside this
model. The model returns a parent fault whose content is not modelled
(`Recorder.MissingTransactionFault`).

`HandlerInterface::handle` is declared `void` (src/HandlerInterface.php:18),
but `TransportHandler::handle` returns its queue
(src/Handlers/TransportHandler.php:35). The model follows the method body.

`InspectorHandler::handle` calls `flush()` on whatever `addEntry` returns
(src/Handlers/InspectorHandler.php:20). The model flushes the same
transport, so it assumes that `addEntry` returns the transport itself, as
`NullTransport::addEntry` does (src/Transports/NullTransport.php:16).

Consequences of the code that the contracts make visible:
- `reportException` for an exception with an empty message fails at the
  segment label check ("Segment label cannot be empty."). `report` turns that
  into a `MonitorException`.
- `start()` in a console with an empty `argv` (or a single empty word) fails
  with "Transaction name cannot be empty." A request name always contains
  at least the space.
- When the base `sendChunk` throws, neither transport restores the URL,
  because the restoring call is not in a `finally`.
- `SyncTransport` turns a base URL with a trailing `/` into one with
  `//ingest/entries`.

## Model

| member | source | states |
|---|---|---|
| Recorder.TransportFor | src/Monitor.php:47-53 | the null transport is chosen exactly when the transport setting is `'null'`, the curl transport otherwise |
| Recorder.CheckTransactionName | src/Monitor.php:102-107 | a name is accepted exactly when it is a non-empty string; a non-string gets "Transaction name must be a string.", `''` gets "Transaction name cannot be empty.", both as `InvalidArgumentException` |
| Recorder.CheckSegmentArguments | src/Monitor.php:118-134 | type and label are accepted exactly when both are non-empty strings; otherwise the first failing check in the order type-is-string, type-non-empty, label-is-string, label-non-empty gives its own message |
| Recorder.SegmentWithoutLabelRefused | src/Monitor.php:118-130 | the label defaults to `null`, so a segment without a label is always refused, for a valid type with "Segment label must be a string." |
| Recorder.SegmentTypeCheckedFirst | src/Monitor.php:120-126 | a faulty type gives the same refusal whatever the label is |
| Recorder.TransactionName | src/Monitor.php:185-195 | a string argument becomes the name; otherwise, outside a console, the name is the request method, a space and the URI |
| Recorder.Join | src/Monitor.php:187 | `implode($glue, $parts)`: the parts in order with the glue between each two; its length is `JoinLength`, and `Split` undoes it by `SplitJoin` |
| Recorder.JoinLength | src/Monitor.php:187 | `implode` keeps every character of every part and adds one glue between each two parts |
| Recorder.JoinBySpaceEmpty | src/Monitor.php:187 | joining by a space gives `''` exactly for no parts or one empty part |
| Recorder.SplitJoin | src/Monitor.php:187 | splitting the joined string on the glue character gives back the parts when none contains it |
| Recorder.TransactionNameKeepsArgv | src/Monitor.php:185-195 | in a console without a string argument, the command-line words come back from the name when none contains a space |
| Recorder.TransactionNameEmptyWhen | src/Monitor.php:183-197 | the derived name is empty exactly for a string argument `''`, or, without one, in a console whose `argv` is empty or one empty word |
| Recorder.LinkError | src/Monitor.php:158-164 | the returned error has `handled` as given, no host and no transaction, a segment reference of exactly `{hash}`, and keeps the six fields of the built error |
| Recorder.LinkErrorKeepsErrorData | src/Monitor.php:158-164 | linking does not change the flat error record `parseErrorData` makes |
| Recorder.TransactionReference | src/Monitor.php:140-143 | a segment's transaction reference has exactly the keys `hash` and `timestamp`, copied from its transaction |
| Recorder.Monitor.constructor | src/Monitor.php:47-53 | the configuration is kept, the transport is chosen by its setting, and there is no transaction and an empty queue |
| Recorder.Monitor.Create | src/Monitor.php:33-53 | a configuration object is kept as it is; a string becomes a fresh configuration with that ingestion key, the monitor's URL and version; anything else is refused with the fixed `InvalidArgumentException` message; the transport follows the setting |
| Recorder.Monitor.AddEntries | src/Monitor.php:166 | the parent `addEntries` appends the entry and leaves the transaction alone |
| Recorder.Monitor.ParentStartTransaction | src/Monitor.php:109 | the parent call makes a new started transaction current and enqueues it |
| Recorder.Monitor.ParentStartSegment | src/Monitor.php:136 | the parent call enqueues a new started segment whose transaction reference holds the current transaction's hash and timestamp; without a transaction it fails and enqueues nothing |
| Recorder.Monitor.StartTransaction | src/Monitor.php:100-110 | a refused name leaves the transaction and queue unchanged and raises the guard's exception; an accepted one makes a new transaction with that name current and appends it to the queue |
| Recorder.Monitor.StartSegment | src/Monitor.php:118-148 | a refused argument raises the guard's exception and enqueues nothing; otherwise the enqueued segment has the oracle hash, no host, a transaction reference of exactly the current transaction's hash and timestamp, the given type and label, and is started and not ended |
| Recorder.Monitor.Start | src/Monitor.php:183-204 | with an empty derived name, nothing changes and "Transaction name cannot be empty." is raised; otherwise a new current, enqueued transaction has the derived name and type and result `success`, and a closure is called exactly once with it; a `Closure` object is always `StartArgument.Closure`, never a plain value (`Recorder.NonClosure`) |
| Recorder.Monitor.RecordError | src/Monitor.php:156-168 | with a transaction, an `error` segment labelled with the message, ended with the elapsed time, goes into the queue, followed immediately by the linked error, which is returned; an empty message is refused with "Segment label cannot be empty." |
| Recorder.Monitor.ReportException | src/Monitor.php:150-169 | without a transaction one is first started from the environment, with its derived name and type, result `success` and the clock reading taken at that point (or the start failure is raised); then the error segment and the linked error are the next two entries, after the new transaction if one was started |
| Recorder.Monitor.Segment | src/Monitor.php:215-226 | without a transaction it raises the fixed `LogicException`; otherwise the `addSegment` result is passed on, or its exception replaced by a `MonitorException` with the same message and code |
| Recorder.Monitor.Report | src/Monitor.php:235-246 | without a transaction it raises the fixed `LogicException` and enqueues nothing; otherwise it is `reportException` with `handled` true, a failure being replaced by a `MonitorException` with the same message and code |
| Delivery.Adds | src/Handlers/TransportHandler.php:24-26 | one `addEntry` call per entry, entry `i` at position `i` |
| Delivery.AddedAdds | src/Handlers/TransportHandler.php:24-26 | adding a list of entries passes exactly those entries, in order, and flushes nothing |
| Delivery.AddedAppend | src/Handlers/TransportHandler.php:23-31 | the entries added and the flushes counted in two call lists add up |
| Delivery.AddedOfAppend | src/Handlers/TransportHandler.php:23-31 | the entries added by two call lists, in order |
| Delivery.FlushesOfAppend | src/Handlers/TransportHandler.php:23-31 | the flushes of two call lists add up |
| Delivery.AttemptSkip | src/Handlers/TransportHandler.php:23-31 | calls that do not throw can be taken off the front of an attempt |
| Delivery.AttemptSingle | src/Handlers/TransportHandler.php:25 | a single call is always made and throws exactly when its number is a fault |
| Delivery.AttemptWithoutFault | src/Handlers/TransportHandler.php:23-31 | an attempt that raised nothing made every planned call |
| Delivery.AttemptAppend | src/Handlers/InspectorHandler.php:20-30 | attempting two call lists attempts the first, and goes on to the second only when the first raised nothing |
| Delivery.Attempt | src/Handlers/TransportHandler.php:23-31 | the calls actually made when the planned calls run in order and the numbered ones throw: up to and including the first that throws, whose exception is raised; never more calls than planned |
| Delivery.AttemptStopsAt | src/Handlers/TransportHandler.php:23-31 | when call `k` is the first that throws, the calls up to and including `k` are made, none after, and that call's exception is raised |
| Delivery.AttemptCompletes | src/Handlers/TransportHandler.php:23-31 | when no call throws, every planned call is made and nothing is raised |
| Delivery.Transport.AddEntry | src/Handlers/TransportHandler.php:25 | the transport records the call and throws as its fault map says for that call number |
| Delivery.Transport.Flush | src/Handlers/TransportHandler.php:28 | the transport records the flush and throws as its fault map says for that call number |
| TransportHandler.HandleCalls | src/Handlers/TransportHandler.php:24-28 | without faults the transport receives `addEntry` for each entry in queue order, then `flush` |
| TransportHandler.HandleCallsOnceInOrder | src/Handlers/TransportHandler.php:24-28 | every entry is added exactly once, in queue order, and there is exactly one flush |
| TransportHandler.EmptyQueueOnlyFlushes | src/Handlers/TransportHandler.php:24-28 | an empty queue gives a single flush and no `addEntry` |
| TransportHandler.FailedAddStopsBeforeFlush | src/Handlers/TransportHandler.php:23-31 | when adding entry `k` throws, entries after `k` are not added and the transport is not flushed |
| TransportHandler.TransportHandler.Handle | src/Handlers/TransportHandler.php:21-36 | the transport receives the planned calls up to the first that throws; the queue is returned unchanged, or the fault is raised as a `MonitorException` with the same message and code and the fault as previous |
| InspectorHandler.SegmentCalls | src/Handlers/InspectorHandler.php:23-27 | the calls for one segment: `addEntry` of the segment, then `addEntry` of its error exactly when `getError()` returns one |
| InspectorHandler.BatchCalls | src/Handlers/InspectorHandler.php:22-28 | the calls of the `foreach`: each segment's calls, in `getSegments()` order (`BatchKeepsSegmentOrder`, `SegmentPosition`) |
| InspectorHandler.HandleCalls | src/Handlers/InspectorHandler.php:20-30 | the calls `handle` makes when nothing throws: the transaction, a flush, the `foreach`, a flush (`HandleCallsShape`) |
| InspectorHandler.BatchSize | src/Handlers/InspectorHandler.php:22-28 | the segment loop adds N + (segments with an error) entries |
| InspectorHandler.BatchOnlyAdds | src/Handlers/InspectorHandler.php:22-28 | the segment loop only adds entries and never flushes |
| InspectorHandler.BatchKeepsSegmentOrder | src/Handlers/InspectorHandler.php:22-28 | segments are sent in `getSegments()` order |
| InspectorHandler.SegmentPosition | src/Handlers/InspectorHandler.php:22-28 | each segment is at its offset, its error (if any) immediately follows it, and the next segment comes right after |
| InspectorHandler.HandleCallsShape | src/Handlers/InspectorHandler.php:20-30 | the transaction is added first and flushed at once, before any segment; there are exactly two flushes, the last call being one; in between comes the segment loop, for 3 + N + errors calls in all |
| InspectorHandler.BatchCallsAppend | src/Handlers/InspectorHandler.php:22-28 | the calls for two lists of segments are the calls for the first followed by those for the second, and their error counts add up |
| InspectorHandler.BatchSplit | src/Handlers/InspectorHandler.php:22-28 | the segment loop up to segment `i` is the loop before it followed by that segment's calls |
| InspectorHandler.BatchPassesSegment | src/Handlers/InspectorHandler.php:22-28 | when the segments before `i` and segment `i` raise nothing, every call up to segment `i` is made and nothing is raised |
| InspectorHandler.BatchStopsInSegment | src/Handlers/InspectorHandler.php:22-28 | when segment `i` is the first to raise, the loop stops within that segment's calls with that fault |
| InspectorHandler.HandleStopsAtTransaction | src/Handlers/InspectorHandler.php:20 | when adding the transaction throws, that is the only call made |
| InspectorHandler.HandleStopsAtFirstFlush | src/Handlers/InspectorHandler.php:20 | when the first flush throws, only the transaction and that flush are made |
| InspectorHandler.HandleAfterHead | src/Handlers/InspectorHandler.php:20-30 | once the transaction has been added and flushed, `handle` goes on with the segment loop and the final flush |
| InspectorHandler.HandleStopsInBatch | src/Handlers/InspectorHandler.php:22-28 | when a call of the segment loop throws, the final flush is never made |
| InspectorHandler.HandleReachesLastFlush | src/Handlers/InspectorHandler.php:20-30 | when nothing before it throws, every call is made and the final flush decides what is raised |
| InspectorHandler.InspectorHandler.SendSegment | src/Handlers/InspectorHandler.php:23-27 | the segment is added, then its error if it has one, stopping at the first fault, which is returned |
| InspectorHandler.InspectorHandler.SendSegments | src/Handlers/InspectorHandler.php:22-28 | the transport receives the segment loop's calls up to the first that throws, and that fault is returned |
| InspectorHandler.InspectorHandler.Handle | src/Handlers/InspectorHandler.php:18-31 | the transport receives the planned transaction, flush, segments and errors, then the final flush, up to the first call that throws; that fault propagates unchanged |
| NullTransport.NullTransport.constructor | src/Transports/NullTransport.php:10 | the queue starts empty |
| NullTransport.NullTransport.AddEntry | src/Transports/NullTransport.php:12-17 | the entry is appended, earlier entries are kept, and the transport itself is returned |
| NullTransport.NullTransport.Flush | src/Transports/NullTransport.php:19-24 | the queue is emptied and the transport itself is returned |
| NullTransport.NullTransport.ResetQueue | src/Transports/NullTransport.php:26-31 | the queue is emptied and the transport itself is returned |
| NullTransport.NullTransport.GetQueue | src/Transports/NullTransport.php:33-36 | returns the held entries, changing nothing |
| Endpoint.AllSlashesAt | src/Transports/CurlTransport.php:14 | a string of slashes has '/' at every position |
| Endpoint.AllSlashesAppend | src/Transports/CurlTransport.php:14 | two runs of slashes make one |
| Endpoint.TrimStart | src/Transports/CurlTransport.php:14 | `ltrim($s, '/')` is no longer than `s` and does not start with '/' |
| Endpoint.TrimEnd | src/Transports/CurlTransport.php:14 | `rtrim($s, '/')` is no longer than `s` and does not end with '/' |
| Endpoint.TrimStartIsSuffix | src/Transports/CurlTransport.php:14 | `ltrim` returns a suffix of its argument |
| Endpoint.TrimEndIsPrefix | src/Transports/CurlTransport.php:14 | `rtrim` returns a prefix of its argument |
| Endpoint.TrimStartDropsSlashes | src/Transports/CurlTransport.php:14 | what `ltrim` drops is slashes only |
| Endpoint.TrimEndDropsSlashes | src/Transports/CurlTransport.php:14 | what `rtrim` drops is slashes only |
| Endpoint.Trim | src/Transports/CurlTransport.php:14 | `trim($s, '/')` is no longer than `s` and leaves a string that neither starts nor ends with '/'; with `TrimInnerRun` it is exactly the run after the leading slashes |
| Endpoint.TrimInnerRun | src/Transports/CurlTransport.php:14 | `trim` keeps the run of `s` that begins right after its leading slashes |
| Endpoint.TrimAllSlashes | src/Transports/CurlTransport.php:14 | a string of slashes only trims to nothing |
| Endpoint.TrimStartSkipsSlashes | src/Transports/CurlTransport.php:14 | slashes put in front of a string make no difference to `ltrim` |
| Endpoint.TrimStartAppendSlashes | src/Transports/CurlTransport.php:14 | trailing slashes survive `ltrim` unless everything before them is a slash too |
| Endpoint.TrimEndSkipsSlashes | src/Transports/CurlTransport.php:14 | slashes put at the end of a string make no difference to `rtrim` |
| Endpoint.TrimEndAppendSlash | src/Transports/CurlTransport.php:14 | a trailing '/' makes no difference to `rtrim` |
| Endpoint.TrimUnslashed | src/Transports/CurlTransport.php:14 | a string without a leading or trailing '/' is left as it is |
| Endpoint.TrimIgnoresOuterSlashes | src/Transports/CurlTransport.php:14 | runs of slashes of any length added before and after a string do not change what `trim` returns |
| Endpoint.CurlIngestUrl | src/Transports/CurlTransport.php:13-15 | the URL set for the call is the trimmed base URL followed by `/ingest/entries`; unless the base URL is all slashes it does not start with '/' and has no '//' at the join, and otherwise it is just `/ingest/entries` |
| Endpoint.SyncIngestUrl | src/Transports/SyncTransport.php:15 | the URL set for the call is the base URL unchanged, followed by `/ingest/entries` |
| Endpoint.CurlIngestUrlOfSlashes | src/Transports/CurlTransport.php:14 | an empty or all-slash base URL leaves just `/ingest/entries` |
| Endpoint.CurlIngestUrlIgnoresOuterSlashes | src/Transports/CurlTransport.php:14 | the trimmed endpoint does not depend on runs of slashes of any length around the base URL |
| Endpoint.IngestUrlsAgreeOnUnslashed | src/Transports/CurlTransport.php:13-15 | for a base URL without leading or trailing '/', the trimmed and untrimmed endpoints agree |
| Endpoint.SyncIngestUrlKeepsTrailingSlash | src/Transports/SyncTransport.php:15 | the untrimmed endpoint of a base URL ending in '/' has `//ingest/entries` |
| Endpoint.ApiHeaders | src/Transports/CurlTransport.php:27-32 | exactly the four headers, the two JSON ones constant, key and version as given |
| Transports.CurlTransport.SendChunk | src/Transports/CurlTransport.php:10-20 | the base call sends with the trimmed endpoint URL; afterwards the URL is the original again unless the base call threw; the other settings are untouched |
| Transports.CurlTransport.GetApiHeaders | src/Transports/CurlTransport.php:25-33 | exactly the four headers, the two JSON ones constant, with the key and version the configuration holds |
| Transports.SyncTransport.SendChunk | src/Transports/SyncTransport.php:12-18 | the base call sends with the untrimmed endpoint URL; afterwards the URL is the original again unless the base call threw; the other settings are untouched |
| Transports.SyncTransport.GetApiHeaders | src/Transports/SyncTransport.php:23-31 | exactly the four headers, the two JSON ones constant, with the key and version the configuration holds |
| Models.Transaction.constructor | src/Models/Transaction.php:10-15 | a new transaction has the given name, result `success`, and is not started |
| Models.Transaction.SetName | src/Models/Transaction.php:17-22 | only the name changes, to the one given, and the transaction itself is returned |
| Models.Transaction.IsStarted | src/Models/Transaction.php:24-27 | a transaction counts as started exactly when its timestamp is set; the constructor leaves it unset, so a new transaction is not started |
| Models.Segment.IsStarted | src/Models/Segment.php:7-10 | a segment counts as started exactly when its timestamp is set, whatever its duration (`SegmentQueriesIndependent`) |
| Models.Segment.IsEnded | src/Models/Segment.php:12-15 | a segment counts as ended exactly when its duration is set and positive (`SegmentEndedIffPositiveDuration`), whatever its timestamp |
| Models.SegmentEndedIffPositiveDuration | src/Models/Segment.php:12-15 | a segment is ended exactly when its duration is set and positive |
| Models.ZeroDurationNotEnded | src/Models/Segment.php:14 | a zero duration does not count as ended |
| Models.SegmentQueriesIndependent | src/Models/Segment.php:7-15 | `isEnded` does not depend on the timestamp, nor `isStarted` on the duration |
| Models.EndedDoesNotImplyStarted | src/Models/Segment.php:7-15 | a segment can be ended without being started |
| Helper.ParseErrorData | src/Helper.php:11-24 | exactly the keys message, class, file, line, code, stack and handled; `handled` as given; the other six copied from the built error; no host or transaction |
| Helper.ParseErrorDataDeterminedBySixFields | src/Helper.php:13-23 | two errors give the same record exactly when they agree on the six copied fields |
| Helper.ParseErrorDataDefaultsToUnhandled | src/Helper.php:11 | omitting `handled` means false |

## Left out

- The base library is not part of this model. That covers `Inspector\Inspector`, its models and its transports. Its members in module `Inspector`, and the parent calls in `Recorder.Monitor`, do only what the monitor's code relies on. The base library's recording switch, defaults, `addSegment`, flush and shutdown handling are not modelled.
- Recorder.Monitor.ParentStartSegment: the base library is taken to store the type and label unchanged. Its fault without a current transaction is `Recorder.MissingTransactionFault`, whose content is not modelled.
- Recorder.Monitor.Segment: takes the outcome of the parent `addSegment` as a parameter. It does not model the segment that call records, nor how it treats the callback's exception.
- Recorder.Monitor.Create: stands in for `new Monitor($configuration)`, because a Dafny constructor cannot fail. The base configuration constructor's own exception (`InspectorException`) is not modelled.
- Recorder.Monitor.Create: a PHP object value is known by its class name only. `instanceof Configuration` accepts `Inspector\Configuration` and `DailyDesk\Monitor\Configuration`, which are ruled out of `Other` (`Recorder.NonConfiguration`); other subclasses of the base configuration are not modelled.
- Models.Transaction.Start: stands in for the base class's `start()`, which is outside this model. It only sets the timestamp that `isStarted` reads.
- Recorder.Monitor.Start: the closure's own effects are not modelled. The model records only that it is called, and with which transaction.
- Recorder.Monitor.ReportException: the error the base library builds from the throwable is an input (`built`), as are the segment's elapsed time and the two clock readings (`startNow` for the transaction `start()` begins, `now` for the error segment).
- Hash generation uses randomness. Hashes are inputs that are only known to be non-empty, and their uniqueness is not modelled.
- Timestamps and durations are wall-clock floats in the source. They are modelled as reals that come from outside.
- Console detection (`PHP_SAPI`, `detectRunningInConsoleUsing`) and `$_SERVER` are inputs to `start` (`Recorder.Environment`).
- The getters `getConfiguration` and `getTransport` only return fields, which the model exposes directly.
- Actual HTTP sending is left out: curl, the payload encoding and the base `sendChunk`. The base transport only logs the chunk together with the URL configured at the time of the call.
- `src/Transports/AsyncTransport.php` is only a header map on top of a background-process transport from the base library. It is not part of this model.
- `src/Configuration.php` holds two default values that the monitor overrides. `src/Handlers/NullHandler.php` does nothing. `src/HandlerInterface.php` and `src/Handlers/Handler.php` are interfaces. None of them is modelled.
- `tests/Unit/CoreTest.php` tests another revision of the library, under another namespace, which is outside this model. Its expectations ("transaction already in progress", default type `transaction`, result `unknown`) are not this code's behaviour and are not modelled.
- Delivery.Attempt: its own contract states only that no more calls are made than planned. What it computes is stated by `Delivery.AttemptStopsAt` and `Delivery.AttemptCompletes`.
