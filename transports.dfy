/**
 * `DailyDesk\Monitor\Transports\CurlTransport` and `SyncTransport`: both
 * send through the base library's curl transport, pointing the shared
 * configuration at the ingestion endpoint for the duration of the call and
 * restoring it afterwards. The restoring assignment follows the base call
 * without a `finally`, so a throwing base call leaves the endpoint in place.
 * The base class is held by composition, as `parent`.
 */
module Transports {
  import opened Wrappers
  import opened Php
  import opened Inspector
  import opened Endpoint

  class CurlTransport {
    const parent: BaseCurlTransport

    constructor (parent: BaseCurlTransport)
      ensures this.parent == parent
    {
      this.parent := parent;
    }

    /**
     * `sendChunk($data)`: the base call sees the URL trimmed of '/' with the
     * ingestion path appended; afterwards the URL is the original one again,
     * unless the base call threw.
     */
    method SendChunk(data: string) returns (fault: Option<Throwable>)
      modifies parent, parent.config
      ensures parent.sent == old(parent.sent) + [Chunk(CurlIngestUrl(old(parent.config.url)), data)]
      ensures fault == (if |old(parent.sent)| in parent.faults then Some(parent.faults[|old(parent.sent)|]) else None)
      ensures parent.config.url == (if fault.None? then old(parent.config.url) else CurlIngestUrl(old(parent.config.url)))
      ensures parent.config.ingestionKey == old(parent.config.ingestionKey)
      ensures parent.config.version == old(parent.config.version)
      ensures parent.config.transport == old(parent.config.transport)
    {
      var url := parent.config.url;
      parent.config.SetUrl(CurlIngestUrl(url));
      fault := parent.SendChunk(data);
      if fault.Some? {
        return;
      }
      parent.config.SetUrl(url);
    }

    /** `getApiHeaders()`: the four headers, with the key and version the configuration holds now. */
    function GetApiHeaders(): (h: map<string, string>)
      reads parent.config
      ensures h.Keys == {"Content-Type", "Accept", "X-Monitor-Key", "X-Monitor-Version"}
      ensures h["Content-Type"] == "application/json" && h["Accept"] == "application/json"
      ensures h["X-Monitor-Key"] == parent.config.ingestionKey && h["X-Monitor-Version"] == parent.config.version
    {
      ApiHeaders(parent.config.ingestionKey, parent.config.version)
    }
  }

  class SyncTransport {
    const parent: BaseCurlTransport

    constructor (parent: BaseCurlTransport)
      ensures this.parent == parent
    {
      this.parent := parent;
    }

    /**
     * `sendChunk($data)`: the base call sees the URL with the ingestion path
     * appended as it is, untrimmed; afterwards the URL is the original one
     * again, unless the base call threw.
     */
    method SendChunk(data: string) returns (fault: Option<Throwable>)
      modifies parent, parent.config
      ensures parent.sent == old(parent.sent) + [Chunk(SyncIngestUrl(old(parent.config.url)), data)]
      ensures fault == (if |old(parent.sent)| in parent.faults then Some(parent.faults[|old(parent.sent)|]) else None)
      ensures parent.config.url == (if fault.None? then old(parent.config.url) else SyncIngestUrl(old(parent.config.url)))
      ensures parent.config.ingestionKey == old(parent.config.ingestionKey)
      ensures parent.config.version == old(parent.config.version)
      ensures parent.config.transport == old(parent.config.transport)
    {
      var url := parent.config.url;
      parent.config.SetUrl(SyncIngestUrl(url));
      fault := parent.SendChunk(data);
      if fault.Some? {
        return;
      }
      parent.config.SetUrl(url);
    }

    /** `getApiHeaders()`: the four headers, with the key and version the configuration holds now. */
    function GetApiHeaders(): (h: map<string, string>)
      reads parent.config
      ensures h.Keys == {"Content-Type", "Accept", "X-Monitor-Key", "X-Monitor-Version"}
      ensures h["Content-Type"] == "application/json" && h["Accept"] == "application/json"
      ensures h["X-Monitor-Key"] == parent.config.ingestionKey && h["X-Monitor-Version"] == parent.config.version
    {
      ApiHeaders(parent.config.ingestionKey, parent.config.version)
    }
  }
}
