/**
 * The surface of the base APM library (the `Inspector` package) that the
 * monitor extends and relies on. Its implementation is not part of this
 * model: each member here states only what the monitor's own code depends
 * on, and its body is the least behaviour that meets that statement.
 */
module Inspector {
  import opened Wrappers
  import opened Php

  /** A value returned by `generateUniqueHash()`: random, but never empty. */
  type Hash = h: string | h != [] witness "0"

  /** The machine identity record the base library attaches to its models; its contents are not modelled. */
  datatype Host = Host

  /** `Inspector\Configuration`: the settings object shared by the monitor and its transports. */
  class Configuration {
    var ingestionKey: string
    var url: string
    var version: string
    var transport: string

    constructor (ingestionKey: string, url: string, version: string, transport: string)
      ensures this.ingestionKey == ingestionKey && this.url == url
      ensures this.version == version && this.transport == transport
    {
      this.ingestionKey := ingestionKey;
      this.url := url;
      this.version := version;
      this.transport := transport;
    }

    method SetUrl(url: string)
      modifies this
      ensures this.url == url
      ensures ingestionKey == old(ingestionKey) && version == old(version) && transport == old(transport)
    {
      this.url := url;
    }

    method SetVersion(version: string)
      modifies this
      ensures this.version == version
      ensures ingestionKey == old(ingestionKey) && url == old(url) && transport == old(transport)
    {
      this.version := version;
    }
  }

  /** `Inspector\Models\Transaction`, after `new Transaction($name)` and `start()`. */
  class Transaction {
    var name: string
    var kind: Option<string>    // `type`; None: the base library's default, not modelled
    var result: Option<string>  // None: the base library's default, not modelled
    var hash: Hash
    var timestamp: Option<real>

    constructor (name: string, hash: Hash, now: real)
      ensures this.name == name && this.hash == hash && timestamp == Some(now)
    {
      this.name := name;
      this.hash := hash;
      timestamp := Some(now);
      kind := None;
      result := None;
    }

    method SetType(kind: string)
      modifies this
      ensures this.kind == Some(kind)
      ensures name == old(name) && result == old(result) && hash == old(hash) && timestamp == old(timestamp)
    {
      this.kind := Some(kind);
    }

    method SetResult(result: string)
      modifies this
      ensures this.result == Some(result)
      ensures name == old(name) && kind == old(kind) && hash == old(hash) && timestamp == old(timestamp)
    {
      this.result := Some(result);
    }
  }

  /** A timestamp as PHP holds it in an array: a float, or null when unset. */
  function Stamp(t: Option<real>): Value {
    match t
    case Some(x) => Decimal(x)
    case None => Nil
  }

  /**
   * `Inspector\Models\Segment`, after `new Segment($transaction, $type, $label)`
   * and `start()`: bound to the transaction by a copied array that holds at
   * least its `hash` and `timestamp`.
   */
  class Segment {
    var hash: string
    var kind: string  // `type`
    var caption: string  // `label`
    var timestamp: Option<real>
    var duration: Option<real>
    var transaction: map<string, Value>
    var host: Option<Host>

    constructor (owner: Transaction, kind: string, caption: string, now: real)
      ensures this.kind == kind && this.caption == caption && timestamp == Some(now) && duration == None
      ensures "hash" in transaction && transaction["hash"] == Text(owner.hash)
      ensures "timestamp" in transaction && transaction["timestamp"] == Stamp(owner.timestamp)
    {
      this.kind := kind;
      this.caption := caption;
      timestamp := Some(now);
      duration := None;
      hash := "";
      transaction := map["name" := Text(owner.name), "hash" := Text(owner.hash), "timestamp" := Stamp(owner.timestamp)];
      host := Some(Host);
    }

    /** `end()`: records the elapsed time, leaving everything else as it was. */
    method End(elapsed: real)
      modifies this
      ensures duration == Some(elapsed)
      ensures hash == old(hash) && kind == old(kind) && caption == old(caption) && timestamp == old(timestamp)
      ensures transaction == old(transaction) && host == old(host)
    {
      duration := Some(elapsed);
    }
  }

  /** `Inspector\Models\Error`: the record the base library builds from a throwable. */
  datatype Error = Error(
    message: string,
    className: string,
    file: string,
    line: int,
    code: int,
    stack: seq<string>,
    handled: bool,
    host: Option<Host>,
    transaction: Option<map<string, Value>>,
    segment: Option<map<string, Value>>)

  /** One `sendChunk` call of the base HTTP transport: the URL configured during the call and the payload. */
  datatype Chunk = Chunk(url: string, data: string)

  /**
   * `Inspector\Transports\CurlTransport`, observed from outside: each call to
   * `sendChunk` is recorded with the URL its configuration holds at that
   * moment; `faults` says which calls (numbered from 0) throw.
   */
  class BaseCurlTransport {
    const config: Configuration
    var sent: seq<Chunk>
    const faults: map<nat, Throwable>

    constructor (config: Configuration, faults: map<nat, Throwable>)
      ensures this.config == config && this.faults == faults && sent == []
    {
      this.config := config;
      this.faults := faults;
      sent := [];
    }

    method SendChunk(data: string) returns (fault: Option<Throwable>)
      modifies this
      ensures sent == old(sent) + [Chunk(config.url, data)]
      ensures fault == (if |old(sent)| in faults then Some(faults[|old(sent)|]) else None)
    {
      fault := if |sent| in faults then Some(faults[|sent|]) else None;
      sent := sent + [Chunk(config.url, data)];
    }
  }
}
