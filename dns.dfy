/**
 * The values the client passes around: the provider's zone, the
 * provider-agnostic record handed in by callers, the provider's wire
 * record, and the foreign library calls the client relies on.
 */
module Dns {
  import opened Wrappers
  import opened Http

  /** netlifyZone, with the two fields the client touches. */
  datatype Zone = Zone(id: string, name: string)

  /** libdns.Record, the caller-facing record with a zone-relative name. */
  datatype Record = Record(rrType: string, name: string, value: string, ttl: int)

  /** netlifyDNSRecord, the provider's wire form. */
  datatype WireRecord = WireRecord(id: string, dnsZoneId: string, rrType: string, hostname: string, value: string, ttl: int)

  /** Go's zero values, returned beside every error. */
  const ZERO_ZONE: Zone := Zone("", "")
  const ZERO_RECORD: WireRecord := WireRecord("", "", "", "", "", 0)

  /**
   * Calls into code outside this model, each open to any behaviour:
   * URL parsing inside http.NewRequestWithContext, libdns.AbsoluteName,
   * the netlifyRecord conversion, json.Marshal and json.Unmarshal into the
   * three shapes the client decodes.
   */
  datatype Library = Library(
    parseUrl: Url -> Option<string>,
    absoluteName: (string, string) -> string,
    toWire: Record -> WireRecord,
    encodeRecord: WireRecord -> Result<Bytes, string>,
    decodeRecord: Bytes -> Result<WireRecord, string>,
    decodeRecords: Bytes -> Result<seq<WireRecord>, string>,
    decodeZones: Bytes -> Result<seq<Zone>, string>)
}
